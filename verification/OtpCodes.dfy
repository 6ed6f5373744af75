/** What a sent code is good for: accepted once, within its lifetime and its attempts. */
module OtpCodes {
  import opened Wrappers
  import opened Domain
  import opened Otp

  // -------------------------------------------------------------------------
  // One check
  // -------------------------------------------------------------------------

  /** Whole seconds from now, at least one, and otherwise as near to the old expiry as
      can be, the later of two equally near ones. */
  predicate RoundedTo(expireAt: int, before: int, now: int) {
    && (expireAt - now) % 1000 == 0 && now + 1000 <= expireAt
    && before - 499 <= expireAt && (expireAt <= before + 500 || expireAt == now + 1000)
  }

  /** A guess is accepted exactly if it is the code of a live session. It touches no
      other session and no rate counter. An accepted one closes the session; a wrong one
      closes it at the attempt limit, and otherwise counts and leaves the expiry where
      it was up to the rounding to whole seconds. */
  lemma CheckOutcome(cfg: Config, st: Store, now: int, id: nat, guess: Option<string>)
    ensures var (st', reply) := Apply(cfg, st, now, Verify(id, guess));
            var live := id in st.sessions && now < st.sessions[id].expireAt;
            && st'.rate == st.rate && |st'.sends| == |st.sends|
            && st'.sessions - {id} == st.sessions - {id}
            && (reply.OtpAccepted? <==> live && guess == Some(st.sessions[id].otpHash) && guess != Some(""))
            && (reply.OtpMissing? <==> live && (guess.None? || guess == Some("")))
            && (reply.OtpAccepted? || reply.OtpMissing? || reply.InvalidOtp?)
            && (reply.OtpAccepted? ==> id !in st'.sessions)
            && (reply.OtpMissing? || !live ==> st'.sessions == st.sessions)
            && (reply.InvalidOtp? && live ==>
                  var s := st.sessions[id];
                  if s.attempts + 1 >= cfg.maxVerifyAttempts then id !in st'.sessions
                  else
                    && id in st'.sessions
                    && st'.sessions[id] == s.(attempts := s.attempts + 1, expireAt := st'.sessions[id].expireAt)
                    && RoundedTo(st'.sessions[id].expireAt, s.expireAt, now))
  {
    var (st', reply) := Apply(cfg, st, now, Verify(id, guess));
    assert st'.sessions - {id} == st.sessions - {id};
  }

  // -------------------------------------------------------------------------
  // What it is good for
  // -------------------------------------------------------------------------

  datatype Guess = Guess(at: int, text: string)

  function AfterGuesses(cfg: Config, st: Store, id: nat, guesses: seq<Guess>): Store
    decreases |guesses|
  {
    if guesses == [] then st
    else AfterGuesses(cfg, Apply(cfg, st, guesses[0].at, Verify(id, Some(guesses[0].text))).0, id, guesses[1..])
  }

  /** Wrong, non-empty guesses, each made while the session is sure to be live:
      every guess before it may have cost up to 499 milliseconds of rounding. */
  ghost predicate WrongInTime(session: Session, guesses: seq<Guess>) {
    forall i :: 0 <= i < |guesses| ==>
      guesses[i].text != "" && guesses[i].text != session.otpHash && guesses[i].at + 499 * i < session.expireAt
  }

  lemma {:induction false} NoSessionStays(cfg: Config, st: Store, id: nat, guesses: seq<Guess>)
    requires id !in st.sessions
    ensures id !in AfterGuesses(cfg, st, id, guesses).sessions
    decreases |guesses|
  {
    if guesses != [] {
      NoSessionStays(cfg, Apply(cfg, st, guesses[0].at, Verify(id, Some(guesses[0].text))).0, id, guesses[1..]);
    }
  }

  /** The right code after some wrong guesses is accepted exactly when they have not
      used up the attempts. */
  lemma {:induction false} RightCodeAcceptedIff(cfg: Config, st: Store, id: nat, guesses: seq<Guess>, now: int)
    requires id in st.sessions && st.sessions[id].otpHash != ""
    requires WrongInTime(st.sessions[id], guesses) && now + 499 * |guesses| < st.sessions[id].expireAt
    ensures var s := st.sessions[id];
            Apply(cfg, AfterGuesses(cfg, st, id, guesses), now, Verify(id, Some(s.otpHash))).1
            == if guesses == [] || s.attempts + |guesses| < cfg.maxVerifyAttempts then OtpAccepted else InvalidOtp
    decreases |guesses|
  {
    if guesses != [] {
      var s, rest := st.sessions[id], guesses[1..];
      var st' := Apply(cfg, st, guesses[0].at, Verify(id, Some(guesses[0].text))).0;
      if id in st'.sessions {
        assert forall i :: 0 <= i < |rest| ==> rest[i] == guesses[i + 1];
        RightCodeAcceptedIff(cfg, st', id, rest, now);
      } else {
        NoSessionStays(cfg, st', id, rest);
      }
    }
  }

  /** Whatever is guessed in between, a code is rejected once its lifetime is over; a wrong
      guess in its last second may stretch that by less than a second. */
  lemma {:induction false} ExpiredCodeRejected(
    cfg: Config, st: Store, id: nat, guesses: seq<Guess>, now: int, guess: Option<string>)
    requires id in st.sessions && st.sessions[id].expireAt + 999 * |guesses| <= now
    ensures Apply(cfg, AfterGuesses(cfg, st, id, guesses), now, Verify(id, guess)).1 == InvalidOtp
    decreases |guesses|
  {
    if guesses != [] {
      var st' := Apply(cfg, st, guesses[0].at, Verify(id, Some(guesses[0].text))).0;
      CheckOutcome(cfg, st, guesses[0].at, id, Some(guesses[0].text));
      if id in st'.sessions {
        ExpiredCodeRejected(cfg, st', id, guesses[1..], now, guess);
      } else {
        NoSessionStays(cfg, st', id, guesses[1..]);
      }
    }
  }

  /** A request that is not refused opens a session in which its code is accepted
      exactly until the attempts are used up. */
  lemma SentCodeAcceptedIff(
    cfg: Config, st: Store, at: int, contact: string, otpMethod: OtpMethod, ip: Option<string>,
    device: Option<string>, id: nat, code: string, guesses: seq<Guess>, now: int)
    requires code != ""
    requires Apply(cfg, st, at, RequestOtp(contact, otpMethod, ip, device, id, code)).1.OtpSent?
    requires forall i :: 0 <= i < |guesses| ==>
               guesses[i].text != "" && guesses[i].text != code && guesses[i].at + 499 * i < at + cfg.ttlSeconds * 1000
    requires now + 499 * |guesses| < at + cfg.ttlSeconds * 1000
    ensures var sent := Apply(cfg, st, at, RequestOtp(contact, otpMethod, ip, device, id, code)).0;
            Apply(cfg, AfterGuesses(cfg, sent, id, guesses), now, Verify(id, Some(code))).1
            == if guesses == [] || |guesses| < cfg.maxVerifyAttempts then OtpAccepted else InvalidOtp
  {
    RightCodeAcceptedIff(
      cfg, Apply(cfg, st, at, RequestOtp(contact, otpMethod, ip, device, id, code)).0, id, guesses, now);
  }

  // -------------------------------------------------------------------------
  // Once only
  // -------------------------------------------------------------------------

  function RunOn(cfg: Config, st: Store, ops: seq<TimedOp>): Store
    decreases |ops|
  {
    if ops == [] then st else RunOn(cfg, Apply(cfg, st, ops[0].at, ops[0].op).0, ops[1..])
  }

  predicate Opens(op: Op, id: nat) {
    op.RequestOtp? && op.id == id
  }

  lemma {:induction false} ClosedStaysClosed(cfg: Config, st: Store, ops: seq<TimedOp>, id: nat)
    requires id !in st.sessions && forall i :: 0 <= i < |ops| ==> !Opens(ops[i].op, id)
    ensures id !in RunOn(cfg, st, ops).sessions
    decreases |ops|
  {
    if ops != [] {
      ClosedStaysClosed(cfg, Apply(cfg, st, ops[0].at, ops[0].op).0, ops[1..], id);
    }
  }

  /** An accepted code closes its session: until the id is opened again, no guess
      for it is accepted, whatever else happens. */
  lemma CodeAcceptedOnce(
    cfg: Config, st: Store, at: int, id: nat, guess: Option<string>, ops: seq<TimedOp>, now: int, again: Option<string>)
    requires Apply(cfg, st, at, Verify(id, guess)).1.OtpAccepted?
    requires forall i :: 0 <= i < |ops| ==> !Opens(ops[i].op, id)
    ensures Apply(cfg, RunOn(cfg, Apply(cfg, st, at, Verify(id, guess)).0, ops), now, Verify(id, again)).1.InvalidOtp?
  {
    ClosedStaysClosed(cfg, Apply(cfg, st, at, Verify(id, guess)).0, ops, id);
  }
}
