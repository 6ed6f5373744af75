/** The delivery log when the write after a send may throw although it committed. */
module LateThrows {
  import opened MessageLog

  /** `late` holds the logs whose worker saw such a throw and will write a failure. */
  datatype LateWorld = LateWorld(w: World, late: set<nat>)

  datatype LateMove = Usual(m: Move) | CommitsThenThrows(log: nat, now: int, reason: string)

  predicate LatePossible(lw: LateWorld, m: LateMove) {
    match m
    case Usual(usual) => Possible(lw.w, usual)
    case CommitsThenThrows(log, now, _) => Possible(lw.w, SentCommits(log, now))
  }

  function LateDo(lw: LateWorld, m: LateMove): LateWorld
    requires LatePossible(lw, m)
  {
    match m
    case Usual(usual) =>
      LateWorld(Do(lw.w, usual), if usual.FailedCommits? || usual.WorkerStops? then lw.late - {usual.log} else lw.late)
    case CommitsThenThrows(log, now, reason) =>
      var sent := Do(lw.w, SentCommits(log, now));
      LateWorld(sent.(workers := lw.w.workers[log := MarkingFailed(reason)]), lw.late + {log})
  }

  ghost predicate LateStepAt(run: seq<LateWorld>, i: nat)
    requires i + 1 < |run|
  {
    exists m :: LatePossible(run[i], m) && run[i + 1] == LateDo(run[i], m)
  }

  ghost predicate IsLateRun(run: seq<LateWorld>) {
    && |run| > 0 && run[0] == LateWorld(START, {})
    && forall i :: 0 <= i < |run| - 1 ==> LateStepAt(run, i)
  }

  ghost predicate LateInv(lw: LateWorld) {
    var w := lw.w;
    && (forall i :: 0 <= i < |w.rows| && w.rows[i].status.Queued? ==> w.rows[i].providerId.None?)
    && (forall log :: log in w.workers ==>
          log < |w.rows| && (log in lw.late || w.rows[log].status.Queued? || w.rows[log].status.Failed?))
    && (forall log :: log in lw.late ==> log in w.workers && w.workers[log].MarkingFailed?)
    && (forall hook :: hook in w.hooks ==>
          w.hooks[hook].log < |w.rows| && w.rows[w.hooks[hook].log].providerId.Some?)
  }

  predicate IsHookMove(m: LateMove) {
    m.Usual? && (m.m.HookFinds? || m.m.HookWrites?)
  }

  predicate IsSentMove(m: LateMove) {
    m.CommitsThenThrows? || m.m.SentCommits? || m.m.FailedCommits?
  }

  lemma HookMoveKeeps(lw: LateWorld, m: LateMove)
    requires LateInv(lw) && LatePossible(lw, m) && IsHookMove(m)
    ensures LateInv(LateDo(lw, m)) && |lw.w.rows| <= |LateDo(lw, m).w.rows|
  {
  }

  lemma SentMoveKeeps(lw: LateWorld, m: LateMove)
    requires LateInv(lw) && LatePossible(lw, m) && IsSentMove(m)
    ensures LateInv(LateDo(lw, m)) && |lw.w.rows| <= |LateDo(lw, m).w.rows|
  {
  }

  lemma OtherMoveKeeps(lw: LateWorld, m: LateMove)
    requires LateInv(lw) && LatePossible(lw, m) && !IsHookMove(m) && !IsSentMove(m)
    ensures LateInv(LateDo(lw, m)) && |lw.w.rows| <= |LateDo(lw, m).w.rows|
  {
  }

  lemma LateMoveKeeps(lw: LateWorld, m: LateMove)
    requires LateInv(lw) && LatePossible(lw, m)
    ensures LateInv(LateDo(lw, m)) && |lw.w.rows| <= |LateDo(lw, m).w.rows|
  {
    if IsHookMove(m) {
      HookMoveKeeps(lw, m);
    } else if IsSentMove(m) {
      SentMoveKeeps(lw, m);
    } else {
      OtherMoveKeeps(lw, m);
    }
  }

  lemma {:induction false} LateRunKeeps(run: seq<LateWorld>, k: nat)
    requires IsLateRun(run) && k < |run|
    ensures LateInv(run[k])
  {
    if k > 0 {
      LateRunKeeps(run, k - 1);
      assert LateStepAt(run, k - 1);
      var m :| LatePossible(run[k - 1], m) && run[k] == LateDo(run[k - 1], m);
      LateMoveKeeps(run[k - 1], m);
    }
  }

  /** A step takes a row out of `read` exactly when it is the failure write of a worker
      whose sent write committed and then threw; nothing else ever does. */
  lemma ReadLeftIff(run: seq<LateWorld>, k: nat, log: nat, m: LateMove)
    requires IsLateRun(run) && k + 1 < |run| && log < |run[k].w.rows| && run[k].w.rows[log].status.Read?
    requires LatePossible(run[k], m) && run[k + 1] == LateDo(run[k], m)
    ensures log < |run[k + 1].w.rows|
    ensures run[k + 1].w.rows[log] != run[k].w.rows[log] <==> m == Usual(FailedCommits(log)) && log in run[k].late
  {
    LateRunKeeps(run, k);
  }

  lemma ExtendsLateRun(run: seq<LateWorld>, m: LateMove) returns (run': seq<LateWorld>)
    requires IsLateRun(run) && LatePossible(run[|run| - 1], m)
    ensures IsLateRun(run') && |run'| == |run| + 1 && run'[|run| - 1] == run[|run| - 1]
    ensures run'[|run|] == LateDo(run[|run| - 1], m)
  {
    run' := run + [LateDo(run[|run| - 1], m)];
    forall i | 0 <= i < |run'| - 1 ensures LateStepAt(run', i) {
      if i < |run| - 1 {
        assert LateStepAt(run, i);
        assert run'[i] == run[i] && run'[i + 1] == run[i + 1];
      } else {
        assert LatePossible(run'[i], m) && run'[i + 1] == LateDo(run'[i], m);
      }
    }
  }

  /** And a run gets there: sent, thrown after the commit, read by the recipient, and
      then marked failed. */
  lemma LateThrowUndoesRead(providerId: string, reason: string) returns (run: seq<LateWorld>)
    ensures IsLateRun(run) && |run| > 1
    ensures var before, after := run[|run| - 2].w, run[|run| - 1].w;
            && |before.rows| == 1 && before.rows[0].status.Read?
            && |after.rows| == 1 && after.rows[0].status.Failed? && after.rows[0].readAt.Some?
  {
    run := [LateWorld(START, {})];
    run := ExtendsLateRun(run, Usual(Enqueue));
    run := ExtendsLateRun(run, Usual(WorkerReads(0)));
    run := ExtendsLateRun(run, Usual(WorkerSends(0, SendResult.Accepted(providerId))));
    run := ExtendsLateRun(run, CommitsThenThrows(0, 0, reason));
    run := ExtendsLateRun(run, Usual(HookFinds(0, 0, ReadReceipt)));
    run := ExtendsLateRun(run, Usual(HookWrites(0, 1)));
    assert run[|run| - 1].w.rows[0].status.Read?;
    run := ExtendsLateRun(run, Usual(FailedCommits(0)));
  }
}
