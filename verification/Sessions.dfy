/** Refresh-token sessions: rotation, logout, and the background purge. Times are
    milliseconds and a row is found by its token hash, which is unique. */
module Sessions {
  const DAY_MS: int := 24 * 60 * 60 * 1000

  /** `login` names the login that the row's chain of refreshes started from. */
  datatype Row = Row(user: nat, expiresAt: int, revoked: bool, login: nat)

  /** `issued` holds every token ever handed out and `logins` counts the logins. */
  datatype Store = Store(rows: map<string, Row>, issued: set<string>, logins: nat)

  const EMPTY_STORE := Store(map[], {}, 0)

  datatype Op =
    | Login(user: nat, token: string)
    | Refresh(token: string, newToken: string, activeUsers: set<nat>)
    | LogoutOne(token: string)
    | LogoutAll(user: nat)
    | Purge(retentionDays: int)

  datatype Reply = Accepted | Rejected | Done

  // -------------------------------------------------------------------------
  // The operations
  // -------------------------------------------------------------------------

  predicate Dead(row: Row, now: int) {
    row.revoked || row.expiresAt <= now
  }

  predicate Usable(rows: map<string, Row>, token: string, now: int) {
    token in rows && !rows[token].revoked && now < rows[token].expiresAt
  }

  function Revoked(rows: map<string, Row>, token: string): map<string, Row> {
    if token in rows then rows[token := rows[token].(revoked := true)] else rows
  }

  function RevokedForUser(rows: map<string, Row>, user: nat): map<string, Row> {
    map token | token in rows ::
      if rows[token].user == user && !rows[token].revoked then rows[token].(revoked := true) else rows[token]
  }

  predicate Purged(row: Row, now: int, retentionDays: int) {
    row.revoked || row.expiresAt < now - retentionDays * DAY_MS
  }

  function Kept(rows: map<string, Row>, now: int, retentionDays: int): map<string, Row> {
    map token | token in rows && !Purged(rows[token], now, retentionDays) :: rows[token]
  }

  function Issue(st: Store, token: string, user: nat, expiresAt: int, login: nat): Store {
    st.(rows := st.rows[token := Row(user, expiresAt, false, login)], issued := st.issued + {token})
  }

  function Apply(ttl: int, st: Store, now: int, op: Op): (Store, Reply) {
    match op
    case Login(user, token) => (Issue(st, token, user, now + ttl, st.logins).(logins := st.logins + 1), Accepted)
    case Refresh(token, newToken, activeUsers) =>
      if !Usable(st.rows, token, now) || st.rows[token].user !in activeUsers then (st, Rejected)
      else
        var row := st.rows[token];
        (Issue(st.(rows := Revoked(st.rows, token)), newToken, row.user, now + ttl, row.login), Accepted)
    case LogoutOne(token) => (st.(rows := Revoked(st.rows, token)), Done)
    case LogoutAll(user) => (st.(rows := RevokedForUser(st.rows, user)), Done)
    case Purge(retentionDays) => (st.(rows := Kept(st.rows, now, retentionDays)), Done)
  }

  /** New tokens have never been handed out before. */
  predicate Fresh(st: Store, op: Op) {
    match op
    case Login(_, token) => token !in st.issued
    case Refresh(_, newToken, _) => newToken !in st.issued
    case _ => true
  }

  datatype TimedOp = TimedOp(at: int, op: Op)

  function Run(ttl: int, st: Store, ops: seq<TimedOp>): Store
    decreases |ops|
  {
    if ops == [] then st else Run(ttl, Apply(ttl, st, ops[0].at, ops[0].op).0, ops[1..])
  }

  /** The replies to everything but the purges. */
  function Replies(ttl: int, st: Store, ops: seq<TimedOp>): seq<Reply>
    decreases |ops|
  {
    if ops == [] then []
    else
      var (st', reply) := Apply(ttl, st, ops[0].at, ops[0].op);
      (if ops[0].op.Purge? then [] else [reply]) + Replies(ttl, st', ops[1..])
  }

  function WithoutPurges(ops: seq<TimedOp>): seq<TimedOp>
    decreases |ops|
  {
    if ops == [] then []
    else (if ops[0].op.Purge? then [] else [ops[0]]) + WithoutPurges(ops[1..])
  }

  ghost predicate InOrder(now: int, ops: seq<TimedOp>) {
    && (forall i :: 0 <= i < |ops| ==> now <= ops[i].at)
    && (forall i, j :: 0 <= i < j < |ops| ==> ops[i].at <= ops[j].at)
  }

  /** Every new token along the run is fresh when it is handed out. */
  ghost predicate AllFresh(ttl: int, st: Store, ops: seq<TimedOp>)
    decreases |ops|
  {
    ops != [] ==> Fresh(st, ops[0].op) && AllFresh(ttl, Apply(ttl, st, ops[0].at, ops[0].op).0, ops[1..])
  }

  // -------------------------------------------------------------------------
  // The purge cannot be observed
  // -------------------------------------------------------------------------

  /** `purged` has lost only rows that are dead. */
  ghost predicate Simulates(full: Store, purged: Store, now: int) {
    && full.issued == purged.issued && full.logins == purged.logins
    && (forall token :: token in purged.rows ==> token in full.rows && full.rows[token] == purged.rows[token])
    && (forall token :: token in full.rows && token !in purged.rows ==> Dead(full.rows[token], now))
    && (forall token :: token in full.rows ==> token in full.issued)
  }

  lemma StepSimulates(ttl: int, full: Store, purged: Store, now: int, at: int, op: Op)
    requires Simulates(full, purged, now) && now <= at && Fresh(full, op) && !op.Purge?
    ensures Simulates(Apply(ttl, full, at, op).0, Apply(ttl, purged, at, op).0, at)
    ensures Apply(ttl, full, at, op).1 == Apply(ttl, purged, at, op).1
  {
  }

  ghost predicate RetentionOk(ops: seq<TimedOp>) {
    forall i :: 0 <= i < |ops| && ops[i].op.Purge? ==> ops[i].op.retentionDays >= 0
  }

  lemma {:induction false} PurgesInvisibleFrom(ttl: int, full: Store, purged: Store, now: int, ops: seq<TimedOp>)
    requires Simulates(full, purged, now) && InOrder(now, ops) && RetentionOk(ops)
    requires AllFresh(ttl, purged, ops)
    ensures Replies(ttl, purged, ops) == Replies(ttl, full, WithoutPurges(ops))
    decreases |ops|
  {
    if ops == [] {
    } else {
      var at, op := ops[0].at, ops[0].op;
      var purged' := Apply(ttl, purged, at, op).0;
      if op.Purge? {
        PurgesInvisibleFrom(ttl, full, purged', at, ops[1..]);
        assert WithoutPurges(ops) == WithoutPurges(ops[1..]);
        assert Replies(ttl, purged, ops) == Replies(ttl, purged', ops[1..]);
      } else {
        StepSimulates(ttl, full, purged, now, at, op);
        PurgesInvisibleFrom(ttl, Apply(ttl, full, at, op).0, purged', at, ops[1..]);
        var less := WithoutPurges(ops);
        assert less[0] == ops[0] && less[1..] == WithoutPurges(ops[1..]);
        assert !op.Purge? && Replies(ttl, full, less)
            == [Apply(ttl, full, at, op).1] + Replies(ttl, Apply(ttl, full, at, op).0, less[1..]);
      }
    }
  }

  /** Purges put anywhere into a run of logins, refreshes and logouts change no
      accept or reject. */
  lemma PurgesInvisible(ttl: int, ops: seq<TimedOp>, start: int)
    requires InOrder(start, ops) && AllFresh(ttl, EMPTY_STORE, ops) && RetentionOk(ops)
    ensures Replies(ttl, EMPTY_STORE, ops) == Replies(ttl, EMPTY_STORE, WithoutPurges(ops))
  {
    PurgesInvisibleFrom(ttl, EMPTY_STORE, EMPTY_STORE, start, ops);
  }

  /** The three-operation run that shows up a negative retention. */
  function Probe(ttl: int, retentionDays: int): seq<TimedOp> {
    [TimedOp(0, Login(0, "a")), TimedOp(ttl - 1, Purge(retentionDays)), TimedOp(ttl - 1, Refresh("a", "b", {0}))]
  }

  /** The purge drops only dead rows exactly when the retention is not negative. */
  lemma PurgeDropsOnlyDeadIff(retentionDays: int)
    ensures retentionDays >= 0 <==> forall row: Row, now: int :: Purged(row, now, retentionDays) ==> Dead(row, now)
  {
    if retentionDays < 0 {
      var row := Row(0, 1, false, 0);
      assert Purged(row, 0, retentionDays) && !Dead(row, 0);
    }
  }

  /** With a negative retention a purge turns an accepted refresh into a rejected one. */
  lemma NegativeRetentionIsVisible(ttl: int, retentionDays: int)
    requires ttl >= 1 && retentionDays < 0
    ensures var ops := Probe(ttl, retentionDays);
            && InOrder(0, ops) && AllFresh(ttl, EMPTY_STORE, ops)
            && Replies(ttl, EMPTY_STORE, ops) == [Accepted, Rejected]
            && Replies(ttl, EMPTY_STORE, WithoutPurges(ops)) == [Accepted, Accepted]
  {
    var ops := Probe(ttl, retentionDays);
    var st1 := Apply(ttl, EMPTY_STORE, 0, ops[0].op).0;
    var st2 := Apply(ttl, st1, ttl - 1, ops[1].op).0;
    assert st1.rows == map["a" := Row(0, ttl, false, 0)];
    assert "a" !in st2.rows;
    LastReply(ttl, st1, ops[2]);
    LastReply(ttl, st2, ops[2]);
    assert ops[1..][0] == ops[1] && ops[1..][1..] == [ops[2]];
    assert Replies(ttl, st1, ops[1..]) == [Rejected];
    assert AllFresh(ttl, st1, ops[1..]);
    assert WithoutPurges(ops[1..]) == [ops[2]];
    assert WithoutPurges(ops) == [ops[0], ops[2]];
    assert [ops[0], ops[2]][1..] == [ops[2]];
  }

  lemma LastReply(ttl: int, st: Store, last: TimedOp)
    requires !last.op.Purge?
    ensures Replies(ttl, st, [last]) == [Apply(ttl, st, last.at, last.op).1]
    ensures WithoutPurges([last]) == [last]
    ensures AllFresh(ttl, st, [last]) <==> Fresh(st, last.op)
  {
    assert [last][1..] == [];
    assert Replies(ttl, Apply(ttl, st, last.at, last.op).0, []) == [];
    assert AllFresh(ttl, Apply(ttl, st, last.at, last.op).0, []);
  }

  // -------------------------------------------------------------------------
  // One live token per login
  // -------------------------------------------------------------------------

  ghost predicate StoreInv(st: Store) {
    && (forall token :: token in st.rows ==> token in st.issued && st.rows[token].login < st.logins)
    && (forall t, u :: t in st.rows && u in st.rows && t != u && st.rows[t].login == st.rows[u].login ==>
          st.rows[t].revoked || st.rows[u].revoked)
  }

  lemma ApplyKeepsStoreInv(ttl: int, st: Store, now: int, op: Op)
    requires StoreInv(st) && Fresh(st, op)
    ensures StoreInv(Apply(ttl, st, now, op).0)
  {
    match op {
      case Login(user, token) => IssueKeepsStoreInv(st.(logins := st.logins + 1), token, user, now + ttl, st.logins);
      case Refresh(token, newToken, activeUsers) =>
        if Usable(st.rows, token, now) && st.rows[token].user in activeUsers {
          RotationKeepsStoreInv(st, token, newToken, now + ttl);
        }
      case LogoutOne(token) => RevokingKeepsStoreInv(st, Revoked(st.rows, token));
      case LogoutAll(user) => RevokingKeepsStoreInv(st, RevokedForUser(st.rows, user));
      case Purge(retentionDays) => RevokingKeepsStoreInv(st, Kept(st.rows, now, retentionDays));
    }
  }

  lemma RotationKeepsStoreInv(st: Store, token: string, newToken: string, expiresAt: int)
    requires StoreInv(st) && token in st.rows && !st.rows[token].revoked && newToken !in st.issued
    ensures var row := st.rows[token];
            StoreInv(Issue(st.(rows := Revoked(st.rows, token)), newToken, row.user, expiresAt, row.login))
  {
    var row := st.rows[token];
    RevokingKeepsStoreInv(st, Revoked(st.rows, token));
    IssueKeepsStoreInv(st.(rows := Revoked(st.rows, token)), newToken, row.user, expiresAt, row.login);
  }

  lemma RevokingKeepsStoreInv(st: Store, rows: map<string, Row>)
    requires StoreInv(st)
    requires forall t :: t in rows ==>
               t in st.rows && (rows[t] == st.rows[t] || rows[t] == st.rows[t].(revoked := true))
    ensures StoreInv(st.(rows := rows))
  {
  }

  lemma IssueKeepsStoreInv(st: Store, token: string, user: nat, expiresAt: int, login: nat)
    requires StoreInv(st) && token !in st.issued && login < st.logins
    requires forall t :: t in st.rows && st.rows[t].login == login ==> st.rows[t].revoked
    ensures StoreInv(Issue(st, token, user, expiresAt, login))
  {
  }

  lemma {:induction false} RunKeepsStoreInv(ttl: int, st: Store, ops: seq<TimedOp>)
    requires StoreInv(st) && AllFresh(ttl, st, ops)
    ensures StoreInv(Run(ttl, st, ops))
    decreases |ops|
  {
    if ops == [] {
    } else {
      ApplyKeepsStoreInv(ttl, st, ops[0].at, ops[0].op);
      RunKeepsStoreInv(ttl, Apply(ttl, st, ops[0].at, ops[0].op).0, ops[1..]);
    }
  }

  /** In any run of non-overlapping calls, at most one token of each login's chain
      of refreshes is usable. */
  lemma OneUsableTokenPerLogin(ttl: int, ops: seq<TimedOp>, t: string, u: string, now: int)
    requires AllFresh(ttl, EMPTY_STORE, ops)
    requires var rows := Run(ttl, EMPTY_STORE, ops).rows;
             Usable(rows, t, now) && Usable(rows, u, now) && rows[t].login == rows[u].login
    ensures t == u
  {
    RunKeepsStoreInv(ttl, EMPTY_STORE, ops);
  }

  /** A token that was handed out and is gone or revoked. */
  predicate Spent(st: Store, token: string) {
    token in st.issued && (token in st.rows ==> st.rows[token].revoked)
  }

  /** Once a token was exchanged, no later refresh with it is accepted. */
  lemma {:induction false} SpentStaysRejected(ttl: int, st: Store, ops: seq<TimedOp>, token: string)
    requires Spent(st, token) && AllFresh(ttl, st, ops)
    ensures Spent(Run(ttl, st, ops), token)
    decreases |ops|
  {
    if ops == [] {
    } else {
      SpentStaysRejected(ttl, Apply(ttl, st, ops[0].at, ops[0].op).0, ops[1..], token);
    }
  }

  lemma {:induction false} RunAppend(ttl: int, st: Store, ops: seq<TimedOp>, more: seq<TimedOp>)
    ensures Run(ttl, st, ops + more) == Run(ttl, Run(ttl, st, ops), more)
    ensures AllFresh(ttl, st, ops + more) <==> AllFresh(ttl, st, ops) && AllFresh(ttl, Run(ttl, st, ops), more)
    decreases |ops|
  {
    if ops == [] {
      assert ops + more == more;
    } else {
      assert (ops + more)[1..] == ops[1..] + more;
      RunAppend(ttl, Apply(ttl, st, ops[0].at, ops[0].op).0, ops[1..], more);
    }
  }

  /** Each token succeeds at most once: after an accepted refresh, any later refresh
      with the same token is rejected, whatever happens in between. */
  lemma TokenSucceedsOnce(
    ttl: int, before: seq<TimedOp>, first: TimedOp, between: seq<TimedOp>, second: TimedOp)
    requires first.op.Refresh? && second.op.Refresh? && first.op.token == second.op.token
    requires AllFresh(ttl, EMPTY_STORE, before + [first] + between + [second])
    requires Apply(ttl, Run(ttl, EMPTY_STORE, before), first.at, first.op).1 == Accepted
    ensures Apply(ttl, Run(ttl, EMPTY_STORE, before + [first] + between), second.at, second.op).1 == Rejected
  {
    var token := first.op.token;
    RunAppend(ttl, EMPTY_STORE, before + [first] + between, [second]);
    RunAppend(ttl, EMPTY_STORE, before + [first], between);
    RunAppend(ttl, EMPTY_STORE, before, [first]);
    var st := Run(ttl, EMPTY_STORE, before);
    RunKeepsStoreInv(ttl, EMPTY_STORE, before);
    var st1 := Apply(ttl, st, first.at, first.op).0;
    assert [first][1..] == [];
    assert Run(ttl, st, [first]) == Run(ttl, st1, []) == st1;
    assert Fresh(st, first.op);
    assert Spent(st1, token);
    SpentStaysRejected(ttl, st1, between, token);
  }

  // -------------------------------------------------------------------------
  // A token that nobody spends
  // -------------------------------------------------------------------------

  /** The operation neither exchanges nor revokes this token of this user. */
  predicate Spares(op: Op, token: string, user: nat) {
    match op
    case Login(_, _) => true
    case Refresh(used, _, _) => used != token
    case LogoutOne(used) => used != token
    case LogoutAll(who) => who != user
    case Purge(retentionDays) => retentionDays >= 0
  }

  /** The row of a token that is spared stays as it is until it expires; after that a
      purge may drop it. */
  ghost predicate Lives(st: Store, token: string, row: Row, now: int) {
    && token in st.issued && (token in st.rows ==> st.rows[token] == row)
    && (now < row.expiresAt ==> token in st.rows)
  }

  lemma {:induction false} SparedTokenLives(ttl: int, st: Store, ops: seq<TimedOp>, token: string, row: Row, now: int)
    requires Lives(st, token, row, now) && !row.revoked && AllFresh(ttl, st, ops)
    requires forall i :: 0 <= i < |ops| ==> ops[i].at <= now && Spares(ops[i].op, token, row.user)
    ensures Lives(Run(ttl, st, ops), token, row, now)
    decreases |ops|
  {
    if ops == [] {
    } else {
      assert Spares(ops[0].op, token, row.user);
      SparedTokenLives(ttl, Apply(ttl, st, ops[0].at, ops[0].op).0, ops[1..], token, row, now);
    }
  }

  /** The operation hands out this token to this user: a login or an accepted refresh. */
  predicate HandsOut(ttl: int, st: Store, at: int, op: Op, token: string, user: nat) {
    || op == Login(user, token)
    || (&& op.Refresh? && op.newToken == token && Apply(ttl, st, at, op).1.Accepted?
        && op.token in st.rows && st.rows[op.token].user == user)
  }

  /** A token from a login or a refresh is accepted exactly until its lifetime is over,
      whatever other logins, refreshes, logouts and purges happen, as long as it was
      not spent and its user is active. */
  lemma IssuedTokenAcceptedIff(
    ttl: int, st: Store, at: int, op: Op, user: nat, token: string, ops: seq<TimedOp>, now: int, newToken: string,
    activeUsers: set<nat>)
    requires HandsOut(ttl, st, at, op, token, user) && Fresh(st, op)
    requires AllFresh(ttl, Apply(ttl, st, at, op).0, ops)
    requires forall i :: 0 <= i < |ops| ==> ops[i].at <= now && Spares(ops[i].op, token, user)
    ensures Apply(ttl, Run(ttl, Apply(ttl, st, at, op).0, ops), now, Refresh(token, newToken, activeUsers)).1
         == if now < at + ttl && user in activeUsers then Accepted else Rejected
  {
    var issued := Apply(ttl, st, at, op).0;
    SparedTokenLives(ttl, issued, ops, token, issued.rows[token], now);
  }

  /** After a logout with a token, that token is never usable again. */
  lemma LogoutOneHolds(ttl: int, st: Store, at: int, token: string, ops: seq<TimedOp>, now: int)
    requires token in st.issued && AllFresh(ttl, Apply(ttl, st, at, LogoutOne(token)).0, ops)
    ensures !Usable(Run(ttl, Apply(ttl, st, at, LogoutOne(token)).0, ops).rows, token, now)
  {
    SpentStaysRejected(ttl, Apply(ttl, st, at, LogoutOne(token)).0, ops, token);
  }

  // -------------------------------------------------------------------------
  // Logging out everywhere
  // -------------------------------------------------------------------------

  ghost predicate LoggedOut(st: Store, user: nat) {
    forall token :: token in st.rows && st.rows[token].user == user ==> st.rows[token].revoked
  }

  ghost predicate NoLogin(ops: seq<TimedOp>, user: nat) {
    forall i :: 0 <= i < |ops| && ops[i].op.Login? ==> ops[i].op.user != user
  }

  lemma {:induction false} LoggedOutStays(ttl: int, st: Store, ops: seq<TimedOp>, user: nat)
    requires LoggedOut(st, user) && NoLogin(ops, user)
    ensures LoggedOut(Run(ttl, st, ops), user)
    decreases |ops|
  {
    if ops == [] {
    } else {
      var st' := Apply(ttl, st, ops[0].at, ops[0].op).0;
      assert LoggedOut(st', user);
      LoggedOutStays(ttl, st', ops[1..], user);
    }
  }

  /** After a logout from all devices no token of the user is usable until the user
      logs in again. */
  lemma LogoutAllHolds(ttl: int, st: Store, at: int, user: nat, ops: seq<TimedOp>, token: string, now: int)
    requires NoLogin(ops, user)
    requires var rows := Run(ttl, Apply(ttl, st, at, LogoutAll(user)).0, ops).rows;
             token in rows && rows[token].user == user
    ensures !Usable(Run(ttl, Apply(ttl, st, at, LogoutAll(user)).0, ops).rows, token, now)
  {
    LoggedOutStays(ttl, Apply(ttl, st, at, LogoutAll(user)).0, ops, user);
  }

  // -------------------------------------------------------------------------
  // The repository and the service
  // -------------------------------------------------------------------------

  class SessionRepository {
    var rows: map<string, Row>
    var issued: set<string>
    var logins: nat

    function State(): Store
      reads this
    {
      Store(rows, issued, logins)
    }

    constructor ()
      ensures State() == EMPTY_STORE
    {
      rows, issued, logins := map[], {}, 0;
    }

    method CreateRow(token: string, user: nat, expiresAt: int, login: nat)
      modifies this`rows, this`issued
      ensures State() == Issue(old(State()), token, user, expiresAt, login)
    {
      rows := rows[token := Row(user, expiresAt, false, login)];
      issued := issued + {token};
    }

    method Revoke(token: string)
      modifies this`rows
      ensures rows == Revoked(old(rows), token)
    {
      if token in rows {
        rows := rows[token := rows[token].(revoked := true)];
      }
    }

    method RevokeAllForUser(user: nat)
      modifies this`rows
      ensures rows.Keys == old(rows).Keys
      ensures forall t :: t in rows ==>
                rows[t] == if old(rows)[t].user == user then old(rows)[t].(revoked := true) else old(rows)[t]
      ensures rows == RevokedForUser(old(rows), user)
    {
      rows := map token | token in rows ::
        if rows[token].user == user && !rows[token].revoked then rows[token].(revoked := true) else rows[token];
    }

    method DeleteExpiredAndRevoked(now: int, retentionDays: int) returns (deleted: nat)
      modifies this`rows
      ensures forall t :: t in rows <==>
                t in old(rows) && !old(rows)[t].revoked && now - retentionDays * 86_400_000 <= old(rows)[t].expiresAt
      ensures forall t :: t in rows ==> rows[t] == old(rows)[t]
      ensures rows == Kept(old(rows), now, retentionDays)
      ensures deleted == |old(rows)| - |rows|
    {
      var cutoff := now - retentionDays * DAY_MS;
      var gone := set token | token in rows && (rows[token].revoked || rows[token].expiresAt < cutoff);
      ghost var before := rows;
      deleted := |gone|;
      rows := rows - gone;
      assert rows == Kept(before, now, retentionDays);
      assert before.Keys == rows.Keys + gone && rows.Keys !! gone;
      assert |before.Keys| == |rows.Keys| + |gone|;
    }

    method RefreshToken(token: string, newToken: string, activeUsers: set<nat>, now: int, ttl: int)
      returns (reply: Reply)
      modifies this
      ensures (State(), reply) == Apply(ttl, old(State()), now, Refresh(token, newToken, activeUsers))
    {
      if token !in rows || rows[token].revoked || rows[token].expiresAt <= now {
        return Rejected;
      }
      var session := rows[token];
      if session.user !in activeUsers {
        return Rejected;
      }
      Revoke(token);
      CreateRow(newToken, session.user, now + ttl, session.login);
      return Accepted;
    }
  }
}
