/** Checks and resends that nothing interrupts do what the whole calls do. */
module OtpAlone {
  import opened Wrappers
  import opened OtpRaces
  import Otp

  // -------------------------------------------------------------------------
  // Calls that nothing interrupts
  // -------------------------------------------------------------------------

  /** The sessions of the timed store that have not expired. */
  function Project(st: Otp.Store, now: int): map<nat, Record> {
    map id | id in st.sessions && now < st.sessions[id].expireAt ::
      Record(st.sessions[id].otpHash, st.sessions[id].attempts, st.sessions[id].send)
  }

  /** The moves of one check alone. */
  function CheckMoves(max: int, w: World, id: nat, guess: string, call: nat): seq<Move> {
    match Compared(w, id, guess)
    case Matched(_, _) => [Reads(call, id, guess), Deletes(call)]
    case Wrong(_, _) =>
      if w.records[id].attempts + 1 >= max then [Reads(call, id, guess), Gets(call), Puts(call), Deletes(call)]
      else [Reads(call, id, guess), Gets(call), Puts(call)]
    case _ => [Reads(call, id, guess)]
  }

  /** A world has the live sessions that the whole check leaves, and the check has ended. */
  ghost predicate Checked(
    cfg: Otp.Config, st: Otp.Store, now: int, id: nat, guess: string, w: World, call: nat)
  {
    var (st', reply) := Otp.Apply(cfg, st, now, Otp.Verify(id, Some(guess)));
    && w.records == Project(st', now)
    && HasEnded(w, call) && (w.calls[call].Accepted? <==> reply.OtpAccepted?)
  }

  lemma RightCheck(cfg: Otp.Config, st: Otp.Store, now: int, id: nat, guess: string, w: World, call: nat)
    requires w.records == Project(st, now) && call !in w.calls && Compared(w, id, guess).Matched?
    ensures var max := cfg.maxVerifyAttempts;
            Checked(cfg, st, now, id, guess, Do(max, Do(max, w, Reads(call, id, guess)), Deletes(call)), call)
  {
    var max := cfg.maxVerifyAttempts;
    assert Do(max, Do(max, w, Reads(call, id, guess)), Deletes(call)).records
        == Project(st.(sessions := st.sessions - {id}, clock := now), now);
  }

  lemma RefusedCheck(cfg: Otp.Config, st: Otp.Store, now: int, id: nat, guess: string, w: World, call: nat)
    requires w.records == Project(st, now) && call !in w.calls && Compared(w, id, guess).Refused?
    ensures Checked(cfg, st, now, id, guess, Do(cfg.maxVerifyAttempts, w, Reads(call, id, guess)), call)
  {
    assert Project(st.(clock := now), now) == Project(st, now);
  }

  /** The world of a wrong check alone after its write-back. */
  function CountedWorld(max: int, w: World, id: nat, call: nat): World
    requires id in w.records
  {
    var r := w.records[id];
    w.(records := w.records[id := r.(attempts := r.attempts + 1)],
       calls := w.calls[call := AfterCount(max, id, r.send, r.attempts + 1)])
  }

  lemma WrongMoves(max: int, w: World, id: nat, guess: string, call: nat)
    requires call !in w.calls && Compared(w, id, guess).Wrong?
    ensures Possible(w, Reads(call, id, guess))
    ensures Possible(Do(max, w, Reads(call, id, guess)), Gets(call))
    ensures Possible(Do(max, Do(max, w, Reads(call, id, guess)), Gets(call)), Puts(call))
    ensures Do(max, Do(max, Do(max, w, Reads(call, id, guess)), Gets(call)), Puts(call))
         == CountedWorld(max, w, id, call)
  {
    var read := w.(calls := w.calls[call := Wrong(id, w.records[id].send)]);
    var got := w.(calls := w.calls[call := Holding(id, w.records[id].send, w.records[id])]);
    assert Do(max, w, Reads(call, id, guess)) == read;
    assert Do(max, read, Gets(call)) == got;
  }

  lemma WrongCheck(cfg: Otp.Config, st: Otp.Store, now: int, id: nat, guess: string, w: World, call: nat)
    requires w.records == Project(st, now) && call !in w.calls && Compared(w, id, guess).Wrong?
    ensures var max := cfg.maxVerifyAttempts;
            var counted := CountedWorld(max, w, id, call);
            if w.records[id].attempts + 1 >= max then
              counted.calls[call].Counted? && Checked(cfg, st, now, id, guess, Do(max, counted, Deletes(call)), call)
            else Checked(cfg, st, now, id, guess, counted, call)
  {
    var max := cfg.maxVerifyAttempts;
    var counted := CountedWorld(max, w, id, call);
    var st' := Otp.Apply(cfg, st, now, Otp.Verify(id, Some(guess))).0;
    if w.records[id].attempts + 1 >= max {
      assert Project(st', now) == w.records - {id};
    } else {
      assert now < st'.sessions[id].expireAt;
      assert Project(st', now) == counted.records;
    }
  }

  /** The moves of a check alone do to the live sessions what the whole check does, with
      the same answer. */
  lemma CheckIsMoves(cfg: Otp.Config, st: Otp.Store, now: int, id: nat, guess: string, w: World, call: nat)
    requires w.records == Project(st, now) && call !in w.calls
    ensures var max := cfg.maxVerifyAttempts;
            var moves := CheckMoves(max, w, id, guess, call);
            Legal(max, w, moves) && Checked(cfg, st, now, id, guess, After(max, w, moves, |moves|), call)
  {
    var max := cfg.maxVerifyAttempts;
    var moves := Plays(max, w, [], Reads(call, id, guess));
    match Compared(w, id, guess) {
      case Matched(_, _) =>
        RightCheck(cfg, st, now, id, guess, w, call);
        moves := Plays(max, w, moves, Deletes(call));
      case Wrong(_, _) =>
        WrongMoves(max, w, id, guess, call);
        WrongCheck(cfg, st, now, id, guess, w, call);
        moves := Plays(max, w, moves, Gets(call));
        moves := Plays(max, w, moves, Puts(call));
        if w.records[id].attempts + 1 >= max {
          moves := Plays(max, w, moves, Deletes(call));
        }
      case _ =>
        RefusedCheck(cfg, st, now, id, guess, w, call);
    }
    assert moves == CheckMoves(max, w, id, guess, call);
  }

  /** The two moves of a resend alone store what a resend that is sent stores. */
  lemma ResendIsMoves(
    cfg: Otp.Config, st: Otp.Store, now: int, id: nat, ip: Option<string>, device: Option<string>, code: string,
    w: World, call: nat)
    requires w.records == Project(st, now) && |w.sent| == |st.sends| && call !in w.calls && cfg.ttlSeconds > 0
    requires Otp.Apply(cfg, st, now, Otp.Resend(id, ip, device, code)).1.OtpSent?
    ensures var max := cfg.maxVerifyAttempts;
            Possible(w, Copies(call, id)) && Possible(Do(max, w, Copies(call, id)), Stores(call, code))
            && var w' := Do(max, Do(max, w, Copies(call, id)), Stores(call, code));
               var st' := Otp.Apply(cfg, st, now, Otp.Resend(id, ip, device, code)).0;
               w'.records == Project(st', now) && |w'.sent| == |st'.sends|
  {
    var max := cfg.maxVerifyAttempts;
    var copied := w.(calls := w.calls[call := Replacing(id)]);
    assert Do(max, w, Copies(call, id)) == copied;
    var st' := Otp.Apply(cfg, st, now, Otp.Resend(id, ip, device, code)).0;
    assert Project(st', now) == w.records[id := Record(code, 0, |w.sent|)];
  }
}
