/** One-time codes: the fixed-window rate limiter, the sessions and their attempt
    counter, and what a code has had of wrong guesses. Times are milliseconds. */
module Otp {
  import opened Wrappers
  import opened Domain

  datatype OtpMethod = Email | Sms

  datatype Bucket = ContactBucket(contact: string) | IpBucket(ip: string) | DeviceBucket(device: string)

  datatype Limit = Limit(max: int, windowSeconds: nat)

  datatype Config = Config(
    ttlSeconds: nat, maxVerifyAttempts: int,
    contact: Limit, ip: Limit, smsIp: Limit, device: Limit)

  /** A counter key, made by its first increment, with its expiry; the key is gone
      once the expiry is reached. */
  datatype Counter = Counter(count: Positive, expireAt: int)

  /** A stored session; `send` is the entry of the send log that carried its current code. */
  datatype Session = Session(
    otpMethod: OtpMethod, contact: string, otpHash: string, attempts: nat, expireAt: int, send: nat)

  /** A dispatched code: to whom, how, for what address and device, when, and how many
      wrong guesses have been compared with it. */
  datatype Send = Send(
    contact: string, otpMethod: OtpMethod, ip: Option<string>, device: Option<string>, at: int, wrong: nat)

  datatype Store = Store(rate: map<Bucket, Counter>, sessions: map<nat, Session>, sends: seq<Send>, clock: int)

  const EMPTY_STORE := Store(map[], map[], [], 0)

  datatype Op =
    | RequestOtp(contact: string, otpMethod: OtpMethod, ip: Option<string>, device: Option<string>,
                 id: nat, otpHash: string)
    | Resend(id: nat, ip: Option<string>, device: Option<string>, otpHash: string)
    | Verify(id: nat, guess: Option<string>)

  datatype Reply = OtpSent | RateLimited | InvalidOtp | OtpMissing | OtpAccepted

  // -------------------------------------------------------------------------
  // The store
  // -------------------------------------------------------------------------

  predicate Running(rate: map<Bucket, Counter>, bucket: Bucket, now: int) {
    bucket in rate && now < rate[bucket].expireAt
  }

  /** Counts one use: a missing or expired key starts a new window. */
  function Consumed(rate: map<Bucket, Counter>, bucket: Bucket, limit: Limit, now: int): map<Bucket, Counter> {
    if Running(rate, bucket, now) then rate[bucket := Counter(rate[bucket].count + 1, rate[bucket].expireAt)]
    else rate[bucket := Counter(1, now + limit.windowSeconds * 1000)]
  }

  predicate Allowed(rate: map<Bucket, Counter>, bucket: Bucket, limit: Limit, now: int) {
    Consumed(rate, bucket, limit, now)[bucket].count <= limit.max
  }

  /** Uses the contact's limit, then the address's, then the device's; the first
      that is exceeded ends the request with the later ones unused. */
  function RateLimits(
    cfg: Config, rate: map<Bucket, Counter>, contact: string, otpMethod: OtpMethod,
    ip: Option<string>, device: Option<string>, now: int): (map<Bucket, Counter>, bool)
  {
    var rate1 := Consumed(rate, ContactBucket(contact), cfg.contact, now);
    if !Allowed(rate, ContactBucket(contact), cfg.contact, now) then (rate1, false)
    else
      var ipLimit := if otpMethod.Sms? then cfg.smsIp else cfg.ip;
      var rate2 := if HasText(ip) then Consumed(rate1, IpBucket(ip.value), ipLimit, now) else rate1;
      if HasText(ip) && !Allowed(rate1, IpBucket(ip.value), ipLimit, now) then (rate2, false)
      else if HasText(device) then
        (Consumed(rate2, DeviceBucket(device.value), cfg.device, now),
         Allowed(rate2, DeviceBucket(device.value), cfg.device, now))
      else (rate2, true)
  }

  predicate Live(sessions: map<nat, Session>, id: nat, now: int) {
    id in sessions && now < sessions[id].expireAt
  }

  /** Whole seconds left, rounded to the nearest, and at least one. */
  function RemainingSeconds(expireAt: int, now: int): int
    requires now < expireAt
  {
    var ttl := (expireAt - now + 500) / 1000;
    if ttl > 0 then ttl else 1
  }

  // -------------------------------------------------------------------------
  // The operations
  // -------------------------------------------------------------------------

  function Apply(cfg: Config, st: Store, now: int, op: Op): (Store, Reply) {
    match op
    case RequestOtp(contact, otpMethod, ip, device, id, otpHash) =>
      var (rate, allowed) := RateLimits(cfg, st.rate, contact, otpMethod, ip, device, now);
      if !allowed then (st.(rate := rate, clock := now), RateLimited)
      else
        (Store(rate,
               st.sessions[id := Session(otpMethod, contact, otpHash, 0, now + cfg.ttlSeconds * 1000, |st.sends|)],
               st.sends + [Send(contact, otpMethod, ip, device, now, 0)], now),
         OtpSent)
    case Resend(id, ip, device, otpHash) =>
      if !Live(st.sessions, id, now) then (st.(clock := now), InvalidOtp)
      else
        var s := st.sessions[id];
        var (rate, allowed) := RateLimits(cfg, st.rate, s.contact, s.otpMethod, ip, device, now);
        if !allowed then (st.(rate := rate, clock := now), RateLimited)
        else
          (Store(rate,
                 st.sessions[id := s.(otpHash := otpHash, attempts := 0, expireAt := now + cfg.ttlSeconds * 1000,
                                      send := |st.sends|)],
                 st.sends + [Send(s.contact, s.otpMethod, ip, device, now, 0)], now),
           OtpSent)
    case Verify(id, guess) =>
      if !Live(st.sessions, id, now) then (st.(clock := now), InvalidOtp)
      else if !HasText(guess) then (st.(clock := now), OtpMissing)
      else
        var s := st.sessions[id];
        if guess.value == s.otpHash then (st.(sessions := st.sessions - {id}, clock := now), OtpAccepted)
        else
          var attempts := s.attempts + 1;
          var sends := if s.send < |st.sends| then
                         st.sends[s.send := st.sends[s.send].(wrong := st.sends[s.send].wrong + 1)]
                       else st.sends;
          var sessions := if attempts >= cfg.maxVerifyAttempts then st.sessions - {id}
                          else st.sessions[id := s.(attempts := attempts,
                                                    expireAt := now + RemainingSeconds(s.expireAt, now) * 1000)];
          (Store(st.rate, sessions, sends, now), InvalidOtp)
  }

  datatype TimedOp = TimedOp(at: int, op: Op)

  function Run(cfg: Config, ops: seq<TimedOp>): Store {
    if ops == [] then EMPTY_STORE
    else Apply(cfg, Run(cfg, ops[..|ops| - 1]), ops[|ops| - 1].at, ops[|ops| - 1].op).0
  }

  ghost predicate InOrder(ops: seq<TimedOp>) {
    && (forall i :: 0 <= i < |ops| ==> 0 <= ops[i].at)
    && (forall i, j :: 0 <= i < j < |ops| ==> ops[i].at <= ops[j].at)
  }

  // -------------------------------------------------------------------------
  // Wrong guesses of a code
  // -------------------------------------------------------------------------

  /** Wrong guesses a code allows: the session is deleted at the limit, and never
      before a first wrong guess. */
  function GuessCap(cfg: Config): nat {
    if cfg.maxVerifyAttempts > 1 then cfg.maxVerifyAttempts else 1
  }

  ghost predicate GuessesInv(cfg: Config, st: Store) {
    && (forall i :: 0 <= i < |st.sends| ==> st.sends[i].wrong <= GuessCap(cfg))
    && (forall id :: id in st.sessions ==>
          var s := st.sessions[id];
          && s.send < |st.sends| && st.sends[s.send].contact == s.contact
          && st.sends[s.send].wrong == s.attempts && s.attempts < GuessCap(cfg))
    && (forall id, other :: id in st.sessions && other in st.sessions && id != other ==>
          st.sessions[id].send != st.sessions[other].send)
  }

  /** A new code replaces whatever the session had. */
  lemma NewCodeKeepsGuesses(cfg: Config, st: Store, st': Store, id: nat)
    requires GuessesInv(cfg, st) && id in st'.sessions
    requires |st'.sends| == |st.sends| + 1 && st'.sends[..|st.sends|] == st.sends
    requires st'.sends[|st.sends|].wrong == 0 && st'.sends[|st.sends|].contact == st'.sessions[id].contact
    requires st'.sessions == st.sessions[id := st'.sessions[id]]
    requires st'.sessions[id].attempts == 0 && st'.sessions[id].send == |st.sends|
    ensures GuessesInv(cfg, st')
  {
    assert forall i :: 0 <= i < |st.sends| ==> st'.sends[i] == st.sends[i];
  }

  lemma WrongGuessKeeps(cfg: Config, st: Store, now: int, id: nat, guess: Option<string>)
    requires GuessesInv(cfg, st) && Live(st.sessions, id, now) && HasText(guess)
    requires guess.value != st.sessions[id].otpHash
    ensures GuessesInv(cfg, Apply(cfg, st, now, Verify(id, guess)).0)
  {
    var st' := Apply(cfg, st, now, Verify(id, guess)).0;
    var s := st.sessions[id];
    assert st'.sends == st.sends[s.send := st.sends[s.send].(wrong := st.sends[s.send].wrong + 1)];
  }

  lemma FewerSessionsKeepGuesses(cfg: Config, st: Store, st': Store)
    requires GuessesInv(cfg, st) && st'.sends == st.sends
    requires forall id :: id in st'.sessions ==> id in st.sessions && st'.sessions[id] == st.sessions[id]
    ensures GuessesInv(cfg, st')
  {
  }

  lemma ApplyKeepsGuesses(cfg: Config, st: Store, now: int, op: Op)
    requires GuessesInv(cfg, st)
    ensures GuessesInv(cfg, Apply(cfg, st, now, op).0)
  {
    var (st', reply) := Apply(cfg, st, now, op);
    if reply.OtpSent? {
      NewCodeKeepsGuesses(cfg, st, st', op.id);
    } else if op.Verify? && Live(st.sessions, op.id, now) && HasText(op.guess)
              && op.guess.value != st.sessions[op.id].otpHash {
      WrongGuessKeeps(cfg, st, now, op.id, op.guess);
    } else {
      FewerSessionsKeepGuesses(cfg, st, st');
    }
  }

  lemma {:induction false} RunKeepsGuesses(cfg: Config, ops: seq<TimedOp>)
    ensures GuessesInv(cfg, Run(cfg, ops))
    decreases |ops|
  {
    if ops == [] {
    } else {
      var before := ops[..|ops| - 1];
      var last := ops[|ops| - 1];
      RunKeepsGuesses(cfg, before);
      ApplyKeepsGuesses(cfg, Run(cfg, before), last.at, last.op);
    }
  }
}
