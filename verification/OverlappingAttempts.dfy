/** The delivery log when more than one worker attempt may be under way for a log. */
module OverlappingAttempts {
  import opened MessageLog

  /** An attempt between its read and its write. */
  datatype Attempting = Attempting(log: nat, worker: Worker)

  datatype Board = Board(rows: seq<Row>, attempts: map<nat, Attempting>, hooks: map<nat, Hook>)

  const EMPTY := Board([], map[], map[])

  datatype Act =
    | Enqueues
    | Begins(a: nat, log: nat)
    | Sends(a: nat, result: SendResult)
    | Commits(a: nat, now: int)
    | Throws(a: nat, reason: string)  // the write did not commit
    | Fails(a: nat)
    | Stops(a: nat)
    | Finds(hook: nat, log: nat, receipt: Receipt)
    | Writes(hook: nat, now: int)

  predicate Allowed(b: Board, m: Act) {
    match m
    case Enqueues => true
    case Begins(a, log) => a !in b.attempts && log < |b.rows|
    case Sends(a, _) => a in b.attempts && b.attempts[a].worker.Sending?
    case Commits(a, _) => a in b.attempts && b.attempts[a].worker.MarkingSent? && b.attempts[a].log < |b.rows|
    case Throws(a, _) => a in b.attempts && b.attempts[a].worker.MarkingSent?
    case Fails(a) => a in b.attempts && b.attempts[a].worker.MarkingFailed? && b.attempts[a].log < |b.rows|
    case Stops(a) => a in b.attempts
    case Finds(hook, log, _) => hook !in b.hooks && log < |b.rows| && b.rows[log].providerId.Some?
    case Writes(hook, _) => hook in b.hooks && b.hooks[hook].log < |b.rows|
  }

  function AfterSend(result: SendResult): Worker {
    match result
    case Accepted(id) => MarkingSent(id)
    case Rejected(reason) => MarkingFailed(reason)
  }

  function Act1(b: Board, m: Act): Board
    requires Allowed(b, m)
  {
    match m
    case Enqueues => b.(rows := b.rows + [QUEUED_ROW])
    case Begins(a, log) =>
      var status := b.rows[log].status;
      if status.Sent? || status.Delivered? || status.Read? then b
      else b.(attempts := b.attempts[a := Attempting(log, Sending)])
    case Sends(a, result) => b.(attempts := b.attempts[a := b.attempts[a].(worker := AfterSend(result))])
    case Commits(a, now) =>
      var t := b.attempts[a];
      Board(b.rows[t.log := AsSent(b.rows[t.log], t.worker.providerId, now)], b.attempts - {a}, b.hooks)
    case Throws(a, reason) => b.(attempts := b.attempts[a := b.attempts[a].(worker := MarkingFailed(reason))])
    case Fails(a) =>
      var t := b.attempts[a];
      Board(b.rows[t.log := AsFailed(b.rows[t.log], t.worker.reason)], b.attempts - {a}, b.hooks)
    case Stops(a) => b.(attempts := b.attempts - {a})
    case Finds(hook, log, receipt) => b.(hooks := b.hooks[hook := Hook(log, receipt)])
    case Writes(hook, now) =>
      var h := b.hooks[hook];
      Board(b.rows[h.log := Receive(b.rows[h.log], h.receipt, now)], b.attempts, b.hooks - {hook})
  }

  /** A world with one attempt per log, as a board whose attempts bear their logs' ids. */
  function BoardOf(w: World): Board {
    Board(w.rows, map log | log in w.workers :: Attempting(log, w.workers[log]), w.hooks)
  }

  function ActOf(m: Move): Act {
    match m
    case Enqueue => Enqueues
    case WorkerReads(log) => Begins(log, log)
    case WorkerSends(log, result) => Sends(log, result)
    case SentCommits(log, now) => Commits(log, now)
    case SentThrows(log, reason) => Throws(log, reason)
    case FailedCommits(log) => Fails(log)
    case WorkerStops(log) => Stops(log)
    case HookFinds(hook, log, receipt) => Finds(hook, log, receipt)
    case HookWrites(hook, now) => Writes(hook, now)
  }

  /** Where attempts on a log do not overlap, each move is the same move here. */
  lemma SameMove(w: World, m: Move)
    requires Possible(w, m)
    ensures Allowed(BoardOf(w), ActOf(m)) && Act1(BoardOf(w), ActOf(m)) == BoardOf(Do(w, m))
  {
    assert Act1(BoardOf(w), ActOf(m)).attempts == BoardOf(Do(w, m)).attempts;
  }

  ghost predicate AllAllowed(b: Board, acts: seq<Act>)
    decreases |acts|
  {
    acts == [] || (Allowed(b, acts[0]) && AllAllowed(Act1(b, acts[0]), acts[1..]))
  }

  ghost function ActAll(b: Board, acts: seq<Act>): Board
    requires AllAllowed(b, acts)
    decreases |acts|
  {
    if acts == [] then b else ActAll(Act1(b, acts[0]), acts[1..])
  }

  lemma {:induction false} ActsOneMore(b: Board, acts: seq<Act>, m: Act) returns (longer: seq<Act>)
    requires AllAllowed(b, acts) && Allowed(ActAll(b, acts), m)
    ensures longer == acts + [m] && AllAllowed(b, longer) && ActAll(b, longer) == Act1(ActAll(b, acts), m)
    decreases |acts|
  {
    longer := acts + [m];
    if acts == [] {
      assert longer[1..] == [];
      assert AllAllowed(Act1(b, m), []) && ActAll(Act1(b, m), []) == Act1(b, m);
    } else {
      var rest := ActsOneMore(Act1(b, acts[0]), acts[1..], m);
      assert longer[1..] == rest;
    }
  }

  // -------------------------------------------------------------------------
  // When a read row can be lost
  // -------------------------------------------------------------------------

  /** A step changes a read row exactly when it is the write of an attempt on that log. */
  lemma ReadLostAtStepIff(b: Board, m: Act, log: nat)
    requires Allowed(b, m) && log < |b.rows| && b.rows[log].status.Read?
    ensures log < |Act1(b, m).rows|
    ensures Act1(b, m).rows[log] != b.rows[log] <==> (m.Commits? || m.Fails?) && b.attempts[m.a].log == log
  {
  }

  ghost predicate AttemptStands(b: Board, log: nat) {
    exists a :: a in b.attempts && b.attempts[a].log == log
  }

  /** Some continuation changes the row. */
  ghost predicate MayChange(b: Board, log: nat)
    requires log < |b.rows|
  {
    exists acts :: AllAllowed(b, acts) && Changed(b, ActAll(b, acts), log)
  }

  ghost predicate Changed(b: Board, b': Board, log: nat)
    requires log < |b.rows|
  {
    log >= |b'.rows| || b'.rows[log] != b.rows[log]
  }

  lemma {:induction false} NoAttemptNoChange(b: Board, acts: seq<Act>, log: nat)
    requires AllAllowed(b, acts) && log < |b.rows| && b.rows[log].status.Read? && !AttemptStands(b, log)
    ensures !Changed(b, ActAll(b, acts), log)
    decreases |acts|
  {
    if acts != [] {
      var b' := Act1(b, acts[0]);
      ReadLostAtStepIff(b, acts[0], log);
      assert forall a :: a in b'.attempts && b'.attempts[a].log == log ==>
        a in b.attempts && b.attempts[a].log == log;
      NoAttemptNoChange(b', acts[1..], log);
    }
  }

  /** A read row can still change exactly while some attempt on its log stands between
      its own read and its write. */
  lemma ReadCanBeLostIff(b: Board, log: nat)
    requires log < |b.rows| && b.rows[log].status.Read?
    ensures MayChange(b, log) <==> AttemptStands(b, log)
  {
    if a :| a in b.attempts && b.attempts[a].log == log {
      StandingAttemptWrites(b, a);
    } else {
      forall acts | AllAllowed(b, acts) ensures !Changed(b, ActAll(b, acts), log) {
        NoAttemptNoChange(b, acts, log);
      }
    }
  }

  lemma StandingAttemptWrites(b: Board, a: nat)
    requires a in b.attempts && b.attempts[a].log < |b.rows| && b.rows[b.attempts[a].log].status.Read?
    ensures MayChange(b, b.attempts[a].log)
  {
    var acts: seq<Act> := [];
    if b.attempts[a].worker.Sending? {
      acts := ActsOneMore(b, acts, Sends(a, Rejected("")));
    }
    if ActAll(b, acts).attempts[a].worker.MarkingSent? {
      acts := ActsOneMore(b, acts, Commits(a, 0));
    } else {
      acts := ActsOneMore(b, acts, Fails(a));
    }
    assert Changed(b, ActAll(b, acts), b.attempts[a].log);
  }

  /** The act marks the read row of the first log failed. */
  predicate UndoesRead(b: Board, m: Act) {
    && |b.rows| > 0 && b.rows[0].status.Read? && Allowed(b, m)
    && |Act1(b, m).rows| > 0 && Act1(b, m).rows[0].status.Failed? && Act1(b, m).rows[0].readAt.Some?
  }

  /** And a run gets there: two attempts read the queued row, one sends it, the recipient
      reads it, and the other one's next act marks it failed. */
  lemma SecondAttemptUndoesRead(providerId: string, reason: string) returns (acts: seq<Act>)
    ensures AllAllowed(EMPTY, acts)
    ensures UndoesRead(ActAll(EMPTY, acts), Fails(1))
  {
    acts := SentBesideAnother(providerId);
    acts := ActsOneMore(EMPTY, acts, Finds(0, 0, ReadReceipt));
    acts := ActsOneMore(EMPTY, acts, Writes(0, 1));
    acts := ActsOneMore(EMPTY, acts, Sends(1, Rejected(reason)));
  }

  /** One attempt has sent the row while another one stands. */
  lemma SentBesideAnother(providerId: string) returns (acts: seq<Act>)
    ensures AllAllowed(EMPTY, acts)
    ensures ActAll(EMPTY, acts) == Board([AsSent(QUEUED_ROW, providerId, 0)], map[1 := Attempting(0, Sending)], map[])
  {
    acts := ActsOneMore(EMPTY, [], Enqueues);
    acts := ActsOneMore(EMPTY, acts, Begins(0, 0));
    acts := ActsOneMore(EMPTY, acts, Begins(1, 0));
    acts := ActsOneMore(EMPTY, acts, Sends(0, SendResult.Accepted(providerId)));
    acts := ActsOneMore(EMPTY, acts, Commits(0, 0));
  }
}
