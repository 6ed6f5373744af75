/** How many wrong guesses a code can see when checks of its session do not overlap. */
module OtpGuesses {
  import opened OtpRaces

  // -------------------------------------------------------------------------
  // How many wrong guesses a code can see
  // -------------------------------------------------------------------------

  /** A wrong check of the session that has compared and not ended, or stopped there for good. */
  predicate IsUnderWay(call: Call, id: nat) {
    (call.Wrong? || call.Holding? || call.Counted?) && call.id == id
  }

  predicate IsWrong(call: Call, send: nat) {
    (call.Wrong? || call.Holding? || call.Counted? || call.WrongEnded?) && call.send == send
  }

  ghost function UnderWay(w: World, id: nat): set<nat> {
    set c | c in w.calls && IsUnderWay(w.calls[c], id)
  }

  /** All the wrong guesses that were compared with a code. */
  ghost function WrongGuesses(w: World, send: nat): set<nat> {
    set c | c in w.calls && IsWrong(w.calls[c], send)
  }

  /** The guesses a code allows when checks do not overlap. */
  function Cap(max: int): nat {
    if max > 1 then max else 1
  }

  /** The guess that a check under way has made and not yet counted. */
  function Due(call: Call, send: nat): nat {
    if (call.Wrong? || call.Holding?) && call.send == send then 1 else 0
  }

  /** The wrong guesses of a record's code are counted in it, but for what is due. */
  ghost predicate CountedIn(w: World, r: Record, due: nat) {
    |WrongGuesses(w, r.send)| <= r.attempts + due
  }

  ghost predicate Below(max: int, w: World, r: Record, due: nat) {
    CountedIn(w, r, due) && r.attempts <= Cap(max) - 1
  }

  /** With no check under way. */
  ghost predicate IdleInv(max: int, w: World, id: nat) {
    UnderWay(w, id) == {} && id in w.records ==> Below(max, w, w.records[id], 0)
  }

  /** With one check under way, at each of its stages. */
  ghost predicate AloneInv(max: int, w: World, id: nat, call: Call) {
    && (id in w.records ==> CountedIn(w, w.records[id], Due(call, w.records[id].send)))
    && (id in w.records && !call.Counted? ==> w.records[id].attempts <= Cap(max) - 1)
    && (call.Holding? ==> Below(max, w, call.copy, Due(call, call.copy.send)))
  }

  ghost predicate CapInv(max: int, w: World, id: nat) {
    forall k :: 0 <= k < |w.sent| && w.sent[k].id == id ==> |WrongGuesses(w, k)| <= Cap(max)
  }

  ghost predicate OneInv(max: int, w: World, id: nat) {
    && CapInv(max, w, id) && IdleInv(max, w, id)
    && forall c :: c in UnderWay(w, id) ==> AloneInv(max, w, id, w.calls[c])
  }

  /** How the sets move when one call does. */
  lemma CallChanges(w: World, w': World, call: nat, id: nat)
    requires call in w'.calls && w'.calls == w.calls[call := w'.calls[call]]
    ensures UnderWay(w', id) == if IsUnderWay(w'.calls[call], id) then UnderWay(w, id) + {call}
                                else UnderWay(w, id) - {call}
  {
  }

  lemma WrongChanges(w: World, w': World, call: nat, send: nat)
    requires call in w'.calls && w'.calls == w.calls[call := w'.calls[call]]
    ensures WrongGuesses(w', send) == if IsWrong(w'.calls[call], send) then WrongGuesses(w, send) + {call}
                                      else WrongGuesses(w, send) - {call}
  {
  }

  lemma Single(s: set<nat>, c: nat, d: nat)
    requires |s| <= 1 && c in s && d in s
    ensures c == d
  {
    if c != d {
      assert {c, d} <= s;
      SubsetSize({c, d}, s);
    }
  }

  lemma SubsetSize(a: set<nat>, b: set<nat>)
    requires a <= b
    ensures |a| <= |b|
  {
    assert b == a + (b - a);
  }

  /** Only a wrong comparison adds to the wrong guesses of a code. */
  lemma StepWrongGuesses(max: int, w: World, m: Move, send: nat)
    requires Possible(w, m)
    ensures WrongGuesses(Do(max, w, m), send)
         == if m.Reads? && IsWrong(Compared(w, m.id, m.guess), send) then WrongGuesses(w, send) + {m.call}
            else WrongGuesses(w, send)
  {
    var w' := Do(max, w, m);
    if !m.Opens? && !m.Expires? {
      WrongChanges(w, w', m.call, send);
    }
  }

  lemma NewCodeKeepsOne(max: int, w: World, id: nat, code: string)
    requires CodesInv(w) && OneInv(max, w, id)
    ensures OneInv(max, WithCode(w, id, code), id)
  {
    var w' := WithCode(w, id, code);
    assert UnderWay(w', id) == UnderWay(w, id);
    assert forall k :: WrongGuesses(w', k) == WrongGuesses(w, k);
  }

  lemma OtherCodeKeepsOne(max: int, w: World, other: nat, code: string, id: nat)
    requires CodesInv(w) && OneInv(max, w, id) && other != id
    ensures OneInv(max, WithCode(w, other, code), id)
  {
    var w' := WithCode(w, other, code);
    assert UnderWay(w', id) == UnderWay(w, id);
    assert forall k :: WrongGuesses(w', k) == WrongGuesses(w, k);
  }

  lemma RemovalKeepsOne(max: int, w: World, other: nat, id: nat)
    requires OneInv(max, w, id)
    ensures OneInv(max, w.(records := w.records - {other}), id)
  {
    var w' := w.(records := w.records - {other});
    assert UnderWay(w', id) == UnderWay(w, id);
    assert forall k :: WrongGuesses(w', k) == WrongGuesses(w, k);
  }

  /** A call that is not a wrong check of the session, before or after. */
  lemma OtherCallKeepsOne(max: int, w: World, call: nat, next: Call, id: nat)
    requires CodesInv(w) && OneInv(max, w, id) && CallOk(w.sent, next)
    requires !IsUnderWay(next, id) && (call in w.calls ==> !IsUnderWay(w.calls[call], id))
    requires forall k :: IsWrong(next, k) <==> call in w.calls && IsWrong(w.calls[call], k)
    ensures OneInv(max, w.(calls := w.calls[call := next]), id)
  {
    var w' := w.(calls := w.calls[call := next]);
    CallChanges(w, w', call, id);
    forall k ensures WrongGuesses(w', k) == WrongGuesses(w, k) {
      WrongChanges(w, w', call, k);
    }
  }

  /** A wrong guess while no other check of the session is under way. */
  lemma WrongReadKeepsOne(max: int, w: World, call: nat, id: nat)
    requires CodesInv(w) && OneInv(max, w, id) && call !in w.calls && id in w.records && UnderWay(w, id) == {}
    ensures OneInv(max, w.(calls := w.calls[call := Wrong(id, w.records[id].send)]), id)
  {
    var r := w.records[id];
    var w' := w.(calls := w.calls[call := Wrong(id, r.send)]);
    CallChanges(w, w', call, id);
    forall k
      ensures WrongGuesses(w', k) == if k == r.send then WrongGuesses(w, k) + {call} else WrongGuesses(w, k)
    {
      WrongChanges(w, w', call, k);
    }
    assert |WrongGuesses(w', r.send)| <= |WrongGuesses(w, r.send)| + 1;
  }

  /** The second read of a wrong check, alone under way. */
  lemma GetKeepsOne(max: int, w: World, call: nat, id: nat)
    requires CodesInv(w) && OneInv(max, w, id) && UnderWay(w, id) == {call} && w.calls[call].Wrong?
    ensures OneInv(max, Do(max, w, Gets(call)), id)
  {
    var w' := Do(max, w, Gets(call));
    assert call in UnderWay(w, id);
    CallChanges(w, w', call, id);
    forall k ensures WrongGuesses(w', k) == WrongGuesses(w, k) {
      StepWrongGuesses(max, w, Gets(call), k);
    }
    assert UnderWay(w', id) == {call} || UnderWay(w', id) == {};
  }

  /** The write-back of a wrong check, alone under way. */
  lemma PutKeepsOne(max: int, w: World, call: nat, id: nat)
    requires CodesInv(w) && OneInv(max, w, id) && UnderWay(w, id) == {call} && w.calls[call].Holding?
    ensures OneInv(max, Do(max, w, Puts(call)), id)
  {
    var w' := Do(max, w, Puts(call));
    var c := w.calls[call];
    assert call in UnderWay(w, id);
    CallChanges(w, w', call, id);
    forall k ensures WrongGuesses(w', k) == WrongGuesses(w, k) {
      StepWrongGuesses(max, w, Puts(call), k);
    }
    assert UnderWay(w', id) == {call} || UnderWay(w', id) == {};
    assert CountedIn(w', w'.records[id], 0);
  }

  lemma DeleteKeepsOne(max: int, w: World, call: nat, id: nat)
    requires CodesInv(w) && OneInv(max, w, id) && UnderWay(w, id) == {call} && w.calls[call].Counted?
    ensures OneInv(max, Do(max, w, Deletes(call)), id)
  {
    var w' := Do(max, w, Deletes(call));
    assert call in UnderWay(w, id);
    CallChanges(w, w', call, id);
    forall k ensures WrongGuesses(w', k) == WrongGuesses(w, k) {
      StepWrongGuesses(max, w, Deletes(call), k);
    }
    assert UnderWay(w', id) == {};
  }

  /** Any move of another session's check. */
  lemma ElsewhereKeepsOne(max: int, w: World, m: Move, id: nat)
    requires CodesInv(w) && OneInv(max, w, id) && Possible(w, m) && (m.Gets? || m.Puts? || m.Deletes?)
    requires w.calls[m.call].id != id
    ensures OneInv(max, Do(max, w, m), id)
  {
    var w' := Do(max, w, m);
    CallChanges(w, w', m.call, id);
    forall k ensures WrongGuesses(w', k) == WrongGuesses(w, k) {
      StepWrongGuesses(max, w, m, k);
    }
    assert UnderWay(w', id) == UnderWay(w, id);
    assert id in w'.records <==> id in w.records;
    assert id in w.records ==> w'.records[id] == w.records[id];
    assert forall c :: c in UnderWay(w, id) ==> w'.calls[c] == w.calls[c];
  }

  lemma ReadKeepsOne(max: int, w: World, call: nat, i: nat, guess: string, id: nat)
    requires CodesInv(w) && OneInv(max, w, id) && call !in w.calls
    requires |UnderWay(Do(max, w, Reads(call, i, guess)), id)| <= 1
    ensures OneInv(max, Do(max, w, Reads(call, i, guess)), id)
  {
    var w' := Do(max, w, Reads(call, i, guess));
    var next := Compared(w, i, guess);
    CallChanges(w, w', call, id);
    if next.Wrong? && i == id {
      forall c | c in UnderWay(w, id) ensures c == call {
        Single(UnderWay(w', id), c, call);
      }
      assert UnderWay(w, id) == {};
      WrongReadKeepsOne(max, w, call, id);
    } else if next.Wrong? {
      OtherWrongReadKeepsOne(max, w, call, i, id);
    } else {
      OtherCallKeepsOne(max, w, call, next, id);
    }
  }

  /** A wrong guess at another session. */
  lemma OtherWrongReadKeepsOne(max: int, w: World, call: nat, other: nat, id: nat)
    requires CodesInv(w) && OneInv(max, w, id) && call !in w.calls && other in w.records && other != id
    ensures OneInv(max, w.(calls := w.calls[call := Wrong(other, w.records[other].send)]), id)
  {
    var send := w.records[other].send;
    var w' := w.(calls := w.calls[call := Wrong(other, send)]);
    CallChanges(w, w', call, id);
    forall k | k != send ensures WrongGuesses(w', k) == WrongGuesses(w, k) {
      WrongChanges(w, w', call, k);
    }
    assert w.sent[send].id != id;
  }

  lemma AlreadyAlone(w: World, call: nat, id: nat)
    requires |UnderWay(w, id)| <= 1 && call in w.calls && IsUnderWay(w.calls[call], id)
    ensures UnderWay(w, id) == {call}
  {
    assert call in UnderWay(w, id);
    forall c | c in UnderWay(w, id) ensures c == call {
      Single(UnderWay(w, id), c, call);
    }
  }

  lemma StepKeepsOne(max: int, w: World, m: Move, id: nat)
    requires CodesInv(w) && OneInv(max, w, id) && Possible(w, m)
    requires |UnderWay(w, id)| <= 1 && |UnderWay(Do(max, w, m), id)| <= 1
    ensures OneInv(max, Do(max, w, m), id)
  {
    match m {
      case Opens(i, code) =>
        if i == id {
          NewCodeKeepsOne(max, w, id, code);
        } else {
          OtherCodeKeepsOne(max, w, i, code, id);
        }
      case Reads(call, i, guess) => ReadKeepsOne(max, w, call, i, guess, id);
      case Gets(call) => CheckMoveKeepsOne(max, w, m, id);
      case Puts(call) => CheckMoveKeepsOne(max, w, m, id);
      case Deletes(call) => CheckMoveKeepsOne(max, w, m, id);
      case Copies(call, i) =>
        OtherCallKeepsOne(max, w, call, if i in w.records then Replacing(i) else Refused, id);
      case Stores(call, code) => StoreKeepsOne(max, w, call, code, id);
      case Expires(i) => RemovalKeepsOne(max, w, i, id);
    }
  }

  lemma StoreKeepsOne(max: int, w: World, call: nat, code: string, id: nat)
    requires CodesInv(w) && OneInv(max, w, id) && Possible(w, Stores(call, code))
    ensures OneInv(max, Do(max, w, Stores(call, code)), id)
  {
    var i := w.calls[call].id;
    if i == id {
      NewCodeKeepsOne(max, w, id, code);
    } else {
      OtherCodeKeepsOne(max, w, i, code, id);
    }
    var stored := WithCode(w, i, code);
    assert CodesInv(stored);
    OtherCallKeepsOne(max, stored, call, Replaced, id);
  }

  lemma CheckMoveKeepsOne(max: int, w: World, m: Move, id: nat)
    requires CodesInv(w) && OneInv(max, w, id) && Possible(w, m) && (m.Gets? || m.Puts? || m.Deletes?)
    requires |UnderWay(w, id)| <= 1
    ensures OneInv(max, Do(max, w, m), id)
  {
    var c := w.calls[m.call];
    if c.id != id {
      ElsewhereKeepsOne(max, w, m, id);
    } else if c.Matched? {
      RemovalKeepsOne(max, w, id, id);
      var removed := w.(records := w.records - {id});
      OtherCallKeepsOne(max, removed, m.call, Accepted(c.id, c.send), id);
    } else {
      AlreadyAlone(w, m.call, id);
      match m
      case Gets(call) => GetKeepsOne(max, w, call, id);
      case Puts(call) => PutKeepsOne(max, w, call, id);
      case Deletes(call) => DeleteKeepsOne(max, w, call, id);
    }
  }

  // -------------------------------------------------------------------------
  // The bound without overlap
  // -------------------------------------------------------------------------

  /** A run to this world with at most `limit` wrong checks of the session ever under way. */
  ghost predicate EndsWithin(max: int, moves: seq<Move>, id: nat, limit: nat, w: World) {
    && Legal(max, START, moves) && After(max, START, moves, |moves|) == w
    && forall n :: 0 <= n <= |moves| ==> |UnderWay(After(max, START, moves, n), id)| <= limit
  }

  ghost predicate ReachedWithin(max: int, id: nat, limit: nat, w: World) {
    exists moves :: EndsWithin(max, moves, id, limit, w)
  }

  lemma {:induction false} RunKeepsOne(max: int, moves: seq<Move>, n: nat, id: nat)
    requires Legal(max, START, moves) && n <= |moves|
    requires forall i :: 0 <= i <= n ==> |UnderWay(After(max, START, moves, i), id)| <= 1
    ensures OneInv(max, After(max, START, moves, n), id)
  {
    if n > 0 {
      RunKeepsOne(max, moves, n - 1, id);
      RunKeepsCodes(max, moves, n - 1);
      AfterNext(max, START, moves, n - 1);
      StepKeepsOne(max, After(max, START, moves, n - 1), moves[n - 1], id);
    }
  }

  /** With at most one wrong check of a session under way, a code of it sees at most
      the limit of wrong guesses, and fewer while it is stored and none is under way. */
  lemma GuessesWithoutOverlap(max: int, id: nat, w: World, send: nat)
    requires ReachedWithin(max, id, 1, w) && send < |w.sent| && w.sent[send].id == id
    ensures |WrongGuesses(w, send)| <= Cap(max)
    ensures UnderWay(w, id) == {} && InForce(w, id, send) ==> |WrongGuesses(w, send)| <= Cap(max) - 1
  {
    var moves :| EndsWithin(max, moves, id, 1, w);
    RunKeepsOne(max, moves, |moves|, id);
  }
}
