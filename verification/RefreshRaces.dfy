/** Refreshes, logouts, logins and purges interleaved one repository call at a time.
    A refresh is a check, a look at its user, a revoke and a create; between two of
    them anything else may run, or the refresh may stop for good. */
module RefreshRaces {
  import opened Sessions

  /** A refresh under way or ended; `row` is what its check read. */
  datatype Call =
    | Found(token: string, row: Row)
    | UserFound(token: string, row: Row)
    | OldRevoked(token: string, row: Row)
    | Ended(token: string, reply: Reply)

  datatype World = World(store: Store, calls: map<nat, Call>)

  const START := World(EMPTY_STORE, map[])

  datatype Move =
    | LoginCreates(user: nat, token: string, now: int)
    | Finds(call: nat, token: string, now: int)
    | FindsUser(call: nat, active: bool)
    | RevokesOld(call: nat)
    | CreatesNew(call: nat, newToken: string, now: int)
    | RevokesOne(token: string)
    | RevokesAll(user: nat)
    | Purges(now: int, retentionDays: int)

  predicate Possible(w: World, m: Move) {
    match m
    case LoginCreates(_, token, _) => token !in w.store.issued
    case Finds(call, _, _) => call !in w.calls
    case FindsUser(call, _) => call in w.calls && w.calls[call].Found?
    case RevokesOld(call) => call in w.calls && w.calls[call].UserFound?
    case CreatesNew(call, newToken, _) =>
      call in w.calls && w.calls[call].OldRevoked? && newToken !in w.store.issued
    case RevokesOne(_) => true
    case RevokesAll(_) => true
    case Purges(_, _) => true
  }

  function Do(ttl: int, w: World, m: Move): World
    requires Possible(w, m)
  {
    var st := w.store;
    match m
    case LoginCreates(user, token, now) =>
      w.(store := Issue(st, token, user, now + ttl, st.logins).(logins := st.logins + 1))
    case Finds(call, token, now) =>
      w.(calls := w.calls[call :=
        if Usable(st.rows, token, now) then Found(token, st.rows[token]) else Ended(token, Rejected)])
    case FindsUser(call, active) =>
      var c := w.calls[call];
      w.(calls := w.calls[call := if active then UserFound(c.token, c.row) else Ended(c.token, Rejected)])
    case RevokesOld(call) =>
      var c := w.calls[call];
      World(st.(rows := Revoked(st.rows, c.token)), w.calls[call := OldRevoked(c.token, c.row)])
    case CreatesNew(call, newToken, now) =>
      var c := w.calls[call];
      World(Issue(st, newToken, c.row.user, now + ttl, c.row.login), w.calls[call := Ended(c.token, Accepted)])
    case RevokesOne(token) => w.(store := st.(rows := Revoked(st.rows, token)))
    case RevokesAll(user) => w.(store := st.(rows := RevokedForUser(st.rows, user)))
    case Purges(now, retentionDays) => w.(store := st.(rows := Kept(st.rows, now, retentionDays)))
  }

  ghost predicate Legal(ttl: int, w: World, moves: seq<Move>)
    decreases |moves|
  {
    moves == [] || (Possible(w, moves[0]) && Legal(ttl, Do(ttl, w, moves[0]), moves[1..]))
  }

  /** The world after the first n moves. */
  ghost function After(ttl: int, w: World, moves: seq<Move>, n: nat): World
    requires Legal(ttl, w, moves) && n <= |moves|
    decreases n
  {
    if n == 0 then w else After(ttl, Do(ttl, w, moves[0]), moves[1..], n - 1)
  }

  lemma {:induction false} AfterNext(ttl: int, w: World, moves: seq<Move>, n: nat)
    requires Legal(ttl, w, moves) && n < |moves|
    ensures Possible(After(ttl, w, moves, n), moves[n])
    ensures After(ttl, w, moves, n + 1) == Do(ttl, After(ttl, w, moves, n), moves[n])
    decreases n
  {
    if n > 0 {
      AfterNext(ttl, Do(ttl, w, moves[0]), moves[1..], n - 1);
    }
  }

  // -------------------------------------------------------------------------
  // A token is unspent until its first spend
  // -------------------------------------------------------------------------

  /** The move revokes or removes the row of this token. */
  predicate Spends(w: World, m: Move, token: string) {
    && token in w.store.rows
    && match m
       case RevokesOld(call) => call in w.calls && w.calls[call].token == token
       case RevokesOne(t) => t == token
       case RevokesAll(user) => w.store.rows[token].user == user
       case Purges(now, retentionDays) => Purged(w.store.rows[token], now, retentionDays)
       case _ => false
  }

  predicate Unspent(w: World, token: string) {
    token in w.store.rows && !w.store.rows[token].revoked
  }

  ghost predicate WorldInv(w: World) {
    && (forall token :: token in w.store.rows ==> token in w.store.issued)
    && (forall c :: c in w.calls && !w.calls[c].Ended? ==> w.calls[c].token in w.store.issued)
  }

  lemma DoKeeps(ttl: int, w: World, m: Move)
    requires WorldInv(w) && Possible(w, m)
    ensures WorldInv(Do(ttl, w, m)) && w.store.issued <= Do(ttl, w, m).store.issued
  {
  }

  /** What a move does to one token that was issued before it. */
  lemma DoUnspent(ttl: int, w: World, m: Move, token: string)
    requires WorldInv(w) && Possible(w, m) && token in w.store.issued
    ensures var w' := Do(ttl, w, m);
            && (Unspent(w', token) <==> Unspent(w, token) && !Spends(w, m, token))
            && (Unspent(w', token) ==> w'.store.rows[token] == w.store.rows[token])
  {
  }

  ghost predicate NoSpend(ttl: int, w: World, moves: seq<Move>, from: nat, to: nat, token: string)
    requires Legal(ttl, w, moves) && to <= |moves|
  {
    forall i :: from <= i < to ==> !Spends(After(ttl, w, moves, i), moves[i], token)
  }

  lemma {:induction false} RunKeeps(ttl: int, moves: seq<Move>, n: nat)
    requires Legal(ttl, START, moves) && n <= |moves|
    ensures WorldInv(After(ttl, START, moves, n))
  {
    if n > 0 {
      RunKeeps(ttl, moves, n - 1);
      AfterNext(ttl, START, moves, n - 1);
      DoKeeps(ttl, After(ttl, START, moves, n - 1), moves[n - 1]);
    }
  }

  /** An issued token is unspent exactly as long as no move has spent it. */
  lemma {:induction false} UnspentIffNoSpend(ttl: int, moves: seq<Move>, n: nat, token: string)
    requires Legal(ttl, START, moves) && n <= |moves| && token in After(ttl, START, moves, n).store.issued
    ensures Unspent(After(ttl, START, moves, n), token) <==> NoSpend(ttl, START, moves, 0, n, token)
  {
    if n > 0 {
      var w, m := After(ttl, START, moves, n - 1), moves[n - 1];
      AfterNext(ttl, START, moves, n - 1);
      RunKeeps(ttl, moves, n - 1);
      if token in w.store.issued {
        UnspentIffNoSpend(ttl, moves, n - 1, token);
        DoUnspent(ttl, w, m, token);
      } else {
        NoSpendBeforeIssue(ttl, moves, n - 1, token);
      }
    }
  }

  lemma {:induction false} NoSpendBeforeIssue(ttl: int, moves: seq<Move>, n: nat, token: string)
    requires Legal(ttl, START, moves) && n < |moves| && token !in After(ttl, START, moves, n).store.issued
    ensures NoSpend(ttl, START, moves, 0, n + 1, token)
  {
    RunKeeps(ttl, moves, n);
    if n > 0 {
      AfterNext(ttl, START, moves, n - 1);
      RunKeeps(ttl, moves, n - 1);
      DoKeeps(ttl, After(ttl, START, moves, n - 1), moves[n - 1]);
      NoSpendBeforeIssue(ttl, moves, n - 1, token);
    }
  }

  /** The row of a token never changes but for being revoked or removed. */
  lemma {:induction false} RowKept(ttl: int, moves: seq<Move>, n: nat, k: nat, token: string)
    requires Legal(ttl, START, moves) && n <= k <= |moves| && token in After(ttl, START, moves, n).store.issued
    ensures token in After(ttl, START, moves, k).store.issued
    ensures Unspent(After(ttl, START, moves, k), token) ==>
              && Unspent(After(ttl, START, moves, n), token)
              && After(ttl, START, moves, k).store.rows[token] == After(ttl, START, moves, n).store.rows[token]
    decreases k
  {
    if n < k {
      RowKept(ttl, moves, n, k - 1, token);
      RunKeeps(ttl, moves, k - 1);
      AfterNext(ttl, START, moves, k - 1);
      DoKeeps(ttl, After(ttl, START, moves, k - 1), moves[k - 1]);
      DoUnspent(ttl, After(ttl, START, moves, k - 1), moves[k - 1], token);
    }
  }

  // -------------------------------------------------------------------------
  // Which refreshes are accepted
  // -------------------------------------------------------------------------

  /** The check of a refresh passes exactly for a token that was issued, that no
      earlier move has spent, and that has not expired. */
  lemma CheckPassesIff(ttl: int, moves: seq<Move>, c: nat)
    requires Legal(ttl, START, moves) && c < |moves| && moves[c].Finds?
    ensures var w, token := After(ttl, START, moves, c), moves[c].token;
            && After(ttl, START, moves, c + 1).calls.Keys == w.calls.Keys + {moves[c].call}
            && (token in w.store.issued && NoSpend(ttl, START, moves, 0, c, token) ==> token in w.store.rows)
            && (After(ttl, START, moves, c + 1).calls[moves[c].call].Found? <==>
                  && token in w.store.issued && NoSpend(ttl, START, moves, 0, c, token)
                  && moves[c].now < w.store.rows[token].expiresAt)
  {
    var w, token := After(ttl, START, moves, c), moves[c].token;
    AfterNext(ttl, START, moves, c);
    RunKeeps(ttl, moves, c);
    if token in w.store.issued {
      UnspentIffNoSpend(ttl, moves, c, token);
    }
  }

  /** The user of a refresh is active whenever it looks. */
  ghost predicate AlwaysActive(moves: seq<Move>, call: nat) {
    forall i :: 0 <= i < |moves| && moves[i].FindsUser? && moves[i].call == call ==> moves[i].active
  }

  predicate EndedWith(w: World, call: nat, reply: Reply) {
    call in w.calls && w.calls[call].Ended? && w.calls[call].reply == reply
  }

  predicate HasEnded(w: World, call: nat) {
    call in w.calls && w.calls[call].Ended?
  }

  predicate Carries(w: World, call: nat, token: string) {
    call in w.calls && w.calls[call].token == token
  }

  /** From its check on a refresh keeps its token, and with an active user it ends as
      its check decided. */
  lemma {:induction false} CallPath(ttl: int, moves: seq<Move>, c: nat, n: nat)
    requires Legal(ttl, START, moves) && c < n <= |moves| && moves[c].Finds?
    ensures var call := moves[c].call;
            var first, last := After(ttl, START, moves, c + 1), After(ttl, START, moves, n);
            && Carries(first, call, moves[c].token) && Carries(last, call, moves[c].token)
            && (first.calls[call].Found? || EndedWith(first, call, Rejected))
            && (!first.calls[call].Found? ==> EndedWith(last, call, Rejected))
            && (first.calls[call].Found? && AlwaysActive(moves, call) && HasEnded(last, call) ==>
                  EndedWith(last, call, Accepted))
    decreases n
  {
    AfterNext(ttl, START, moves, n - 1);
    if c + 1 < n {
      CallPath(ttl, moves, c, n - 1);
    }
  }

  /** Of two refreshes with one token the second is accepted exactly when its check ran
      before the first spend of the token: here `i` is that first spend, by a refresh,
      a logout or a purge, and `c` the check of a refresh that runs to its end for an
      active user with a token that was issued and has not expired. */
  lemma AcceptedIffCheckedBeforeSpend(ttl: int, moves: seq<Move>, i: nat, c: nat)
    requires Legal(ttl, START, moves) && i < |moves| && c < |moves| && moves[c].Finds?
    requires var token := moves[c].token;
             && token in After(ttl, START, moves, c).store.issued
             && Spends(After(ttl, START, moves, i), moves[i], token) && NoSpend(ttl, START, moves, 0, i, token)
             && moves[c].now < After(ttl, START, moves, i).store.rows[token].expiresAt
    requires HasEnded(After(ttl, START, moves, |moves|), moves[c].call) && AlwaysActive(moves, moves[c].call)
    ensures EndedWith(After(ttl, START, moves, |moves|), moves[c].call, Accepted) <==> c < i
  {
    var token := moves[c].token;
    CheckPassesIff(ttl, moves, c);
    CallPath(ttl, moves, c, |moves|);
    RunKeeps(ttl, moves, i);
    if c < i {
      RowKept(ttl, moves, c, i, token);
      UnspentIffNoSpend(ttl, moves, i, token);
    }
  }

  /** So two accepted refreshes with one token always overlap: the check of each ran
      before the revoke of the other. */
  lemma AcceptedTwiceOverlap(ttl: int, moves: seq<Move>, c: nat, i: nat)
    requires Legal(ttl, START, moves) && c < |moves| && i < |moves|
    requires moves[c].Finds? && moves[i].RevokesOld? && moves[i].call != moves[c].call
    requires Carries(After(ttl, START, moves, i), moves[i].call, moves[c].token)
    requires EndedWith(After(ttl, START, moves, |moves|), moves[c].call, Accepted)
    ensures c < i
  {
    var token := moves[c].token;
    CallPath(ttl, moves, c, |moves|);
    CheckPassesIff(ttl, moves, c);
    if i < c {
      RunKeeps(ttl, moves, i);
      AfterNext(ttl, START, moves, i);
      RowKept(ttl, moves, i + 1, c, token);
      UnspentIffNoSpend(ttl, moves, c, token);
    }
  }

  // -------------------------------------------------------------------------
  // Building runs
  // -------------------------------------------------------------------------

  lemma {:induction false} Appended(ttl: int, w: World, moves: seq<Move>, more: seq<Move>)
    requires Legal(ttl, w, moves) && Legal(ttl, After(ttl, w, moves, |moves|), more)
    ensures Legal(ttl, w, moves + more)
    ensures After(ttl, w, moves + more, |moves + more|)
         == After(ttl, After(ttl, w, moves, |moves|), more, |more|)
    decreases |moves|
  {
    if moves == [] {
      assert moves + more == more;
    } else {
      assert (moves + more)[1..] == moves[1..] + more;
      Appended(ttl, Do(ttl, w, moves[0]), moves[1..], more);
    }
  }

  /** One move more. */
  lemma Plays(ttl: int, w: World, moves: seq<Move>, m: Move) returns (longer: seq<Move>)
    requires Legal(ttl, w, moves) && Possible(After(ttl, w, moves, |moves|), m)
    ensures longer == moves + [m] && Legal(ttl, w, longer)
    ensures After(ttl, w, longer, |longer|) == Do(ttl, After(ttl, w, moves, |moves|), m)
  {
    var end := After(ttl, w, moves, |moves|);
    longer := moves + [m];
    assert [m][1..] == [];
    assert Legal(ttl, Do(ttl, end, m), []);
    assert After(ttl, Do(ttl, end, m), [], 0) == Do(ttl, end, m);
    assert Legal(ttl, end, [m]) && After(ttl, end, [m], 1) == Do(ttl, end, m);
    Appended(ttl, w, moves, [m]);
  }

  lemma {:induction false} LongerThanAll(tokens: set<string>) returns (n: nat)
    ensures forall t :: t in tokens ==> |t| < n
    decreases |tokens|
  {
    n := 0;
    if t :| t in tokens {
      n := LongerThanAll(tokens - {t});
      n := if |t| < n then n else |t| + 1;
    }
  }

  lemma NewToken(issued: set<string>) returns (token: string)
    ensures token !in issued
  {
    var n := LongerThanAll(issued);
    token := seq(n, _ => 'a');
  }

  /** Single use does need refreshes that do not overlap: here two with one token are
      accepted, and one login ends up with two usable tokens. */
  lemma OverlappingRefreshesFork(ttl: int, user: nat, token: string, a: string, b: string)
    returns (moves: seq<Move>)
    requires ttl > 0 && token != a && token != b && a != b
    ensures Legal(ttl, START, moves)
    ensures var w := After(ttl, START, moves, |moves|);
            && EndedWith(w, 0, Accepted) && EndedWith(w, 1, Accepted)
            && Carries(w, 0, token) && Carries(w, 1, token)
            && Usable(w.store.rows, a, 0) && Usable(w.store.rows, b, 0)
            && w.store.rows[a].login == w.store.rows[b].login
  {
    moves := Plays(ttl, START, [], LoginCreates(user, token, 0));
    moves := Plays(ttl, START, moves, Finds(0, token, 0));
    moves := Plays(ttl, START, moves, Finds(1, token, 0));
    moves := Plays(ttl, START, moves, FindsUser(0, true));
    moves := Plays(ttl, START, moves, FindsUser(1, true));
    moves := Plays(ttl, START, moves, RevokesOld(0));
    moves := Plays(ttl, START, moves, RevokesOld(1));
    moves := Plays(ttl, START, moves, CreatesNew(0, a, 0));
    moves := Plays(ttl, START, moves, CreatesNew(1, b, 0));
  }

  // -------------------------------------------------------------------------
  // One token per login, unless two refreshes win the same one
  // -------------------------------------------------------------------------

  /** The refresh passed its check and was not turned away since. */
  predicate Wins(call: Call) {
    !call.Ended? || call.reply.Accepted?
  }

  ghost predicate Forked(w: World) {
    exists c, d :: c in w.calls && d in w.calls && c != d && BothWin(w.calls[c], w.calls[d])
  }

  predicate BothWin(c: Call, d: Call) {
    Wins(c) && Wins(d) && c.token == d.token
  }

  predicate SameLogin(w: World, t: string, u: string) {
    Unspent(w, t) && Unspent(w, u) && w.store.rows[t].login == w.store.rows[u].login
  }

  /** Within a login, every unspent token and every token under exchange is the same one. */
  ghost predicate OneClaim(w: World) {
    && (forall t, u :: SameLogin(w, t, u) ==> t == u)
    && (forall t, c :: Unspent(w, t) && c in w.calls && !w.calls[c].Ended?
                       && w.calls[c].row.login == w.store.rows[t].login ==>
          w.calls[c].token == t && !w.calls[c].OldRevoked?)
    && (forall c, d :: c in w.calls && d in w.calls && !w.calls[c].Ended? && !w.calls[d].Ended?
                       && w.calls[c].row.login == w.calls[d].row.login ==>
          w.calls[c].token == w.calls[d].token)
    && (forall t :: t in w.store.rows ==> w.store.rows[t].login < w.store.logins)
    && (forall c :: c in w.calls && !w.calls[c].Ended? ==> w.calls[c].row.login < w.store.logins)
  }

  lemma StoreMoveKeepsOneClaim(ttl: int, w: World, m: Move)
    requires WorldInv(w) && OneClaim(w) && Possible(w, m)
    requires m.LoginCreates? || m.RevokesOne? || m.RevokesAll? || m.Purges?
    ensures OneClaim(Do(ttl, w, m))
  {
    var w' := Do(ttl, w, m);
    assert w'.calls == w.calls;
    assert forall t :: Unspent(w', t) ==> (m.LoginCreates? && t == m.token) || (Unspent(w, t) && w'.store.rows[t] == w.store.rows[t]);
    assert forall t, u :: SameLogin(w', t, u) ==> t == u || SameLogin(w, t, u);
  }

  lemma FindsKeepsOneClaim(ttl: int, w: World, m: Move)
    requires WorldInv(w) && OneClaim(w) && Possible(w, m) && m.Finds?
    ensures OneClaim(Do(ttl, w, m))
  {
    var w' := Do(ttl, w, m);
    assert forall t, u :: SameLogin(w', t, u) <==> SameLogin(w, t, u);
    if Usable(w.store.rows, m.token, m.now) {
      assert forall t :: Unspent(w, t) && w.store.rows[t].login == w.store.rows[m.token].login ==>
        SameLogin(w, t, m.token);
    }
  }

  lemma FindsUserKeepsOneClaim(ttl: int, w: World, m: Move)
    requires WorldInv(w) && OneClaim(w) && Possible(w, m) && m.FindsUser?
    ensures OneClaim(Do(ttl, w, m))
  {
    assert forall t, u :: SameLogin(Do(ttl, w, m), t, u) <==> SameLogin(w, t, u);
  }

  lemma RevokesKeepsOneClaim(ttl: int, w: World, m: Move)
    requires WorldInv(w) && OneClaim(w) && Possible(w, m) && m.RevokesOld?
    ensures OneClaim(Do(ttl, w, m))
  {
    var w' := Do(ttl, w, m);
    assert !Unspent(w', w.calls[m.call].token);
    assert forall t :: Unspent(w', t) ==> Unspent(w, t) && w'.store.rows[t] == w.store.rows[t];
    assert forall t, u :: SameLogin(w', t, u) ==> SameLogin(w, t, u);
  }

  lemma CreateKeepsOneClaim(ttl: int, w: World, m: Move)
    requires WorldInv(w) && OneClaim(w) && !Forked(w) && Possible(w, m) && m.CreatesNew?
    ensures OneClaim(Do(ttl, w, m))
  {
    var w' := Do(ttl, w, m);
    assert forall c :: c in w.calls && c != m.call ==> !BothWin(w.calls[c], w.calls[m.call]);
    assert forall t :: Unspent(w', t) ==> t == m.newToken || (Unspent(w, t) && w'.store.rows[t] == w.store.rows[t]);
    assert forall t, u :: SameLogin(w', t, u) ==> t == u || t == m.newToken || u == m.newToken || SameLogin(w, t, u);
  }

  lemma {:induction false} RunKeepsOneClaim(ttl: int, moves: seq<Move>, n: nat)
    requires Legal(ttl, START, moves) && n <= |moves|
    requires forall i :: 0 <= i < n ==> !Forked(After(ttl, START, moves, i))
    ensures OneClaim(After(ttl, START, moves, n))
  {
    if n > 0 {
      var w, m := After(ttl, START, moves, n - 1), moves[n - 1];
      RunKeepsOneClaim(ttl, moves, n - 1);
      RunKeeps(ttl, moves, n - 1);
      AfterNext(ttl, START, moves, n - 1);
      if m.CreatesNew? {
        CreateKeepsOneClaim(ttl, w, m);
      } else if m.Finds? {
        FindsKeepsOneClaim(ttl, w, m);
      } else if m.FindsUser? {
        FindsUserKeepsOneClaim(ttl, w, m);
      } else if m.RevokesOld? {
        RevokesKeepsOneClaim(ttl, w, m);
      } else {
        StoreMoveKeepsOneClaim(ttl, w, m);
      }
    }
  }

  /** In any run, whatever else overlaps, a login has at most one usable token unless
      two refreshes with one and the same token both passed their check. */
  lemma OneUsableTokenUnlessForked(ttl: int, moves: seq<Move>, t: string, u: string, now: int)
    requires Legal(ttl, START, moves) && forall i :: 0 <= i < |moves| ==> !Forked(After(ttl, START, moves, i))
    requires var rows := After(ttl, START, moves, |moves|).store.rows;
             Usable(rows, t, now) && Usable(rows, u, now) && rows[t].login == rows[u].login
    ensures t == u
  {
    RunKeepsOneClaim(ttl, moves, |moves|);
    assert SameLogin(After(ttl, START, moves, |moves|), t, u);
  }

  /** Refreshes under way with one token have read one and the same row. */
  ghost predicate SameRows(w: World) {
    && (forall c :: c in w.calls && !w.calls[c].Ended? && Unspent(w, w.calls[c].token) ==>
          w.calls[c].row == w.store.rows[w.calls[c].token])
    && (forall c, d :: c in w.calls && d in w.calls && BothStand(w.calls[c], w.calls[d]) ==>
          w.calls[c].row == w.calls[d].row)
  }

  predicate BothStand(c: Call, d: Call) {
    !c.Ended? && !d.Ended? && c.token == d.token
  }

  /** An unspent token whose check passes is unspent for every refresh that stands with it. */
  lemma DoKeepsSameRows(ttl: int, w: World, m: Move)
    requires WorldInv(w) && SameRows(w) && Possible(w, m)
    ensures SameRows(Do(ttl, w, m))
  {
    var w' := Do(ttl, w, m);
    forall c | c in w'.calls && !w'.calls[c].Ended? && Unspent(w', w'.calls[c].token)
      ensures w'.calls[c].row == w'.store.rows[w'.calls[c].token]
    {
      if c in w.calls && !w.calls[c].Ended? {
        DoUnspent(ttl, w, m, w.calls[c].token);
      }
    }
    if m.Finds? && Usable(w.store.rows, m.token, m.now) {
      assert Unspent(w, m.token);
    }
  }

  lemma {:induction false} RunKeepsSameRows(ttl: int, moves: seq<Move>, n: nat)
    requires Legal(ttl, START, moves) && n <= |moves|
    ensures SameRows(After(ttl, START, moves, n))
  {
    if n > 0 {
      RunKeepsSameRows(ttl, moves, n - 1);
      RunKeeps(ttl, moves, n - 1);
      AfterNext(ttl, START, moves, n - 1);
      DoKeepsSameRows(ttl, After(ttl, START, moves, n - 1), moves[n - 1]);
    }
  }

  /** A refresh past its check runs to its end and hands out a usable token. */
  lemma FinishesRefresh(ttl: int, w: World, c: nat) returns (moves: seq<Move>, token: string)
    requires ttl > 0 && c in w.calls && !w.calls[c].Ended?
    ensures Legal(ttl, w, moves)
    ensures var w', row := After(ttl, w, moves, |moves|), w.calls[c].row;
            && token !in w.store.issued && Usable(w'.store.rows, token, 0)
            && w'.store.rows[token].login == row.login && w'.store.rows[token].user == row.user
            && w'.calls.Keys == w.calls.Keys
            && (forall d :: d in w.calls && d != c ==> w'.calls[d] == w.calls[d])
            && w.store.issued <= w'.store.issued && token in w'.store.issued
            && (forall t :: t in w.store.rows && t != w.calls[c].token && t != token ==>
                  t in w'.store.rows && w'.store.rows[t] == w.store.rows[t])
  {
    moves := [];
    if w.calls[c].Found? {
      moves := Plays(ttl, w, moves, FindsUser(c, true));
    }
    if After(ttl, w, moves, |moves|).calls[c].UserFound? {
      moves := Plays(ttl, w, moves, RevokesOld(c));
    }
    token := NewToken(After(ttl, w, moves, |moves|).store.issued);
    moves := Plays(ttl, w, moves, CreatesNew(c, token, 0));
  }

  /** Conversely, wherever a run has two refreshes with one token past their checks and
      before their creates, it can go on to two usable tokens of their login. */
  lemma ForkReachesTwoTokens(ttl: int, moves: seq<Move>, c: nat, d: nat)
    returns (more: seq<Move>, t: string, u: string)
    requires ttl > 0 && Legal(ttl, START, moves)
    requires var w := After(ttl, START, moves, |moves|);
             c in w.calls && d in w.calls && c != d && BothStand(w.calls[c], w.calls[d])
    ensures Legal(ttl, START, moves + more) && t != u
    ensures var rows := After(ttl, START, moves + more, |moves + more|).store.rows;
            Usable(rows, t, 0) && Usable(rows, u, 0) && rows[t].login == rows[u].login
  {
    var w := After(ttl, START, moves, |moves|);
    RunKeepsSameRows(ttl, moves, |moves|);
    RunKeeps(ttl, moves, |moves|);
    var first: seq<Move>, second: seq<Move>;
    first, t := FinishesRefresh(ttl, w, c);
    var w1 := After(ttl, w, first, |first|);
    second, u := FinishesRefresh(ttl, w1, d);
    assert t != w1.calls[d].token;
    Appended(ttl, w, first, second);
    more := first + second;
    Appended(ttl, START, moves, more);
  }

  // -------------------------------------------------------------------------
  // Logging out everywhere
  // -------------------------------------------------------------------------

  /** A refresh of the user stands between its check and its create. */
  ghost predicate RefreshStands(w: World, user: nat) {
    exists c :: c in w.calls && StandsFor(w.calls[c], user)
  }

  predicate StandsFor(call: Call, user: nat) {
    !call.Ended? && call.row.user == user
  }

  ghost predicate NoLogin(moves: seq<Move>, user: nat) {
    forall i :: 0 <= i < |moves| && moves[i].LoginCreates? ==> moves[i].user != user
  }

  /** The user has no token that can be used or is about to be. */
  ghost predicate LockedOut(w: World, user: nat) {
    && !RefreshStands(w, user)
    && forall t :: t in w.store.rows && w.store.rows[t].user == user ==> w.store.rows[t].revoked
  }

  lemma DoKeepsLockedOut(ttl: int, w: World, m: Move, user: nat)
    requires LockedOut(w, user) && Possible(w, m) && (m.LoginCreates? ==> m.user != user)
    ensures LockedOut(Do(ttl, w, m), user)
  {
    var w' := Do(ttl, w, m);
    forall c | c in w'.calls ensures !StandsFor(w'.calls[c], user) {
      assert c in w.calls ==> !StandsFor(w.calls[c], user);
    }
    if m.CreatesNew? {
      assert !StandsFor(w.calls[m.call], user);
    }
  }

  lemma {:induction false} StaysLockedOut(ttl: int, w: World, moves: seq<Move>, user: nat)
    requires LockedOut(w, user) && Legal(ttl, w, moves) && NoLogin(moves, user)
    ensures LockedOut(After(ttl, w, moves, |moves|), user)
    decreases |moves|
  {
    if moves != [] {
      DoKeepsLockedOut(ttl, w, moves[0], user);
      StaysLockedOut(ttl, Do(ttl, w, moves[0]), moves[1..], user);
    }
  }

  /** Without a new login the user may still come to hold a usable token. */
  ghost predicate MayStayIn(ttl: int, w: World, user: nat) {
    exists moves ::
      && Legal(ttl, w, moves) && NoLogin(moves, user) && SomeUsable(After(ttl, w, moves, |moves|), user)
  }

  ghost predicate SomeUsable(w: World, user: nat) {
    exists token, now :: Usable(w.store.rows, token, now) && w.store.rows[token].user == user
  }

  /** After a logout from all devices a token of the user can be usable without a new
      login exactly when a refresh of that user stood between its check and its create
      at the moment of the logout. */
  lemma LogoutAllLeaksIff(ttl: int, w: World, user: nat)
    requires ttl > 0
    ensures MayStayIn(ttl, Do(ttl, w, RevokesAll(user)), user) <==> RefreshStands(w, user)
  {
    var out := Do(ttl, w, RevokesAll(user));
    if RefreshStands(w, user) {
      var c :| c in w.calls && StandsFor(w.calls[c], user);
      StandingRefreshLeaks(ttl, out, c);
    } else {
      assert LockedOut(out, user);
      forall moves | Legal(ttl, out, moves) && NoLogin(moves, user)
        ensures !SomeUsable(After(ttl, out, moves, |moves|), user)
      {
        StaysLockedOut(ttl, out, moves, user);
      }
    }
  }

  /** A refresh past its check can always run to its end. */
  lemma StandingRefreshLeaks(ttl: int, w: World, c: nat)
    requires ttl > 0 && c in w.calls && !w.calls[c].Ended?
    ensures MayStayIn(ttl, w, w.calls[c].row.user)
  {
    var moves: seq<Move> := [];
    if w.calls[c].Found? {
      moves := Plays(ttl, w, moves, FindsUser(c, true));
    }
    if After(ttl, w, moves, |moves|).calls[c].UserFound? {
      moves := Plays(ttl, w, moves, RevokesOld(c));
    }
    var unused := NewToken(After(ttl, w, moves, |moves|).store.issued);
    moves := Plays(ttl, w, moves, CreatesNew(c, unused, 0));
    assert Usable(After(ttl, w, moves, |moves|).store.rows, unused, 0);
  }

  // -------------------------------------------------------------------------
  // Calls that do not overlap
  // -------------------------------------------------------------------------

  /** The moves of one call that nothing interrupts. */
  function MovesOf(w: World, now: int, op: Op, call: nat): seq<Move> {
    match op
    case Login(user, token) => [LoginCreates(user, token, now)]
    case Refresh(token, newToken, activeUsers) =>
      if !Usable(w.store.rows, token, now) then [Finds(call, token, now)]
      else if w.store.rows[token].user !in activeUsers then [Finds(call, token, now), FindsUser(call, false)]
      else
        [Finds(call, token, now), FindsUser(call, true), RevokesOld(call), CreatesNew(call, newToken, now)]
    case LogoutOne(token) => [RevokesOne(token)]
    case LogoutAll(user) => [RevokesAll(user)]
    case Purge(retentionDays) => [Purges(now, retentionDays)]
  }

  lemma FourMoves(ttl: int, w: World, m0: Move, m1: Move, m2: Move, m3: Move)
    requires Possible(w, m0) && Possible(Do(ttl, w, m0), m1) && Possible(Do(ttl, Do(ttl, w, m0), m1), m2)
    requires Possible(Do(ttl, Do(ttl, Do(ttl, w, m0), m1), m2), m3)
    ensures var moves := [m0, m1, m2, m3];
            Legal(ttl, w, moves)
            && After(ttl, w, moves, 4) == Do(ttl, Do(ttl, Do(ttl, Do(ttl, w, m0), m1), m2), m3)
  {
    var moves := Plays(ttl, w, [], m0);
    moves := Plays(ttl, w, moves, m1);
    moves := Plays(ttl, w, moves, m2);
    moves := Plays(ttl, w, moves, m3);
    assert moves == [m0, m1, m2, m3];
  }

  /** Uninterrupted, the moves of a call do what the whole call does, and nothing of
      it stays under way. */
  lemma CallIsMoves(ttl: int, w: World, now: int, op: Op, call: nat)
    requires Fresh(w.store, op) && call !in w.calls
    ensures var moves := MovesOf(w, now, op, call);
            && Legal(ttl, w, moves)
            && var (st, reply) := Apply(ttl, w.store, now, op);
               After(ttl, w, moves, |moves|)
               == World(st, if op.Refresh? then w.calls[call := Ended(op.token, reply)] else w.calls)
  {
    if op.Refresh? && Usable(w.store.rows, op.token, now) {
      if w.store.rows[op.token].user in op.activeUsers {
        FourMoves(ttl, w, Finds(call, op.token, now), FindsUser(call, true), RevokesOld(call),
                  CreatesNew(call, op.newToken, now));
      } else {
        var moves := Plays(ttl, w, [], Finds(call, op.token, now));
        moves := Plays(ttl, w, moves, FindsUser(call, false));
        assert moves == [Finds(call, op.token, now), FindsUser(call, false)];
      }
    } else {
      var moves := Plays(ttl, w, [], MovesOf(w, now, op, call)[0]);
      assert moves == MovesOf(w, now, op, call);
    }
  }

  ghost predicate NothingStands(w: World, calls: nat) {
    forall c :: c in w.calls ==> w.calls[c].Ended? && c < calls
  }

  /** Every run of whole calls is a run of moves at whose end nothing stands, so what
      holds of runs without overlap is the case of what holds of all runs. */
  lemma {:induction false} RunIsMoves(ttl: int, w: World, ops: seq<TimedOp>, calls: nat) returns (moves: seq<Move>)
    requires AllFresh(ttl, w.store, ops) && NothingStands(w, calls)
    ensures Legal(ttl, w, moves)
    ensures After(ttl, w, moves, |moves|).store == Run(ttl, w.store, ops)
    ensures NothingStands(After(ttl, w, moves, |moves|), calls + |ops|)
    decreases |ops|
  {
    moves := [];
    if ops != [] {
      var first := MovesOf(w, ops[0].at, ops[0].op, calls);
      CallIsMoves(ttl, w, ops[0].at, ops[0].op, calls);
      var next := After(ttl, w, first, |first|);
      var rest := RunIsMoves(ttl, next, ops[1..], calls + 1);
      Appended(ttl, w, first, rest);
      moves := first + rest;
    }
  }
}
