/** What the rate limits add up to: the counters after a request, when a code is
    sent, and how many are sent in any interval for a contact, an address and a device. */
module OtpLimits {
  import opened Wrappers
  import opened Domain
  import opened Otp

  // -------------------------------------------------------------------------
  // One request
  // -------------------------------------------------------------------------

  /** The bucket's window has room for one more use. */
  predicate Room(rate: map<Bucket, Counter>, bucket: Bucket, limit: Limit, now: int) {
    if Running(rate, bucket, now) then rate[bucket].count < limit.max else 1 <= limit.max
  }

  /** One use more in a running window, or the first use of a window of the limit's length. */
  predicate CountedOnce(
    rate: map<Bucket, Counter>, rate': map<Bucket, Counter>, bucket: Bucket, limit: Limit, now: int)
  {
    && bucket in rate'
    && (bucket in rate && now < rate[bucket].expireAt ==>
          rate'[bucket] == Counter(rate[bucket].count + 1, rate[bucket].expireAt))
    && (!(bucket in rate && now < rate[bucket].expireAt) ==>
          rate'[bucket] == Counter(1, now + limit.windowSeconds * 1000))
  }

  predicate Untouched(rate: map<Bucket, Counter>, rate': map<Bucket, Counter>, bucket: Bucket) {
    && (bucket in rate' <==> bucket in rate)
    && (bucket in rate ==> rate'[bucket] == rate[bucket])
  }

  /** A request passes exactly when each of its buckets has room: the contact's, the
      address's with the limit of the chosen method, and the device's. */
  lemma AllowedIff(
    cfg: Config, rate: map<Bucket, Counter>, contact: string, otpMethod: OtpMethod, ip: Option<string>,
    device: Option<string>, now: int)
    ensures RateLimits(cfg, rate, contact, otpMethod, ip, device, now).1 <==>
              && Room(rate, ContactBucket(contact), cfg.contact, now)
              && (HasText(ip) ==>
                    Room(rate, IpBucket(ip.value), if otpMethod.Sms? then cfg.smsIp else cfg.ip, now))
              && (HasText(device) ==> Room(rate, DeviceBucket(device.value), cfg.device, now))
  {
    var rate1 := Consumed(rate, ContactBucket(contact), cfg.contact, now);
    assert Allowed(rate, ContactBucket(contact), cfg.contact, now) <==>
             Room(rate, ContactBucket(contact), cfg.contact, now);
    assert HasText(ip) ==>
             (Running(rate1, IpBucket(ip.value), now) <==> Running(rate, IpBucket(ip.value), now));
  }

  /** A request counts its contact; its address if the contact had room; its device if
      the address had room, too; and no other bucket. */
  lemma CountersAfter(
    cfg: Config, rate: map<Bucket, Counter>, contact: string, otpMethod: OtpMethod, ip: Option<string>,
    device: Option<string>, now: int, bucket: Bucket)
    ensures var rate' := RateLimits(cfg, rate, contact, otpMethod, ip, device, now).0;
            var ipLimit := if otpMethod.Sms? then cfg.smsIp else cfg.ip;
            var first := Room(rate, ContactBucket(contact), cfg.contact, now);
            var second := first && (HasText(ip) ==> Room(rate, IpBucket(ip.value), ipLimit, now));
            match bucket
            case ContactBucket(c) =>
              if c == contact then CountedOnce(rate, rate', bucket, cfg.contact, now) else Untouched(rate, rate', bucket)
            case IpBucket(a) =>
              if HasText(ip) && a == ip.value && first then CountedOnce(rate, rate', bucket, ipLimit, now)
              else Untouched(rate, rate', bucket)
            case DeviceBucket(d) =>
              if HasText(device) && d == device.value && second then CountedOnce(rate, rate', bucket, cfg.device, now)
              else Untouched(rate, rate', bucket)
  {
    var rate1 := Consumed(rate, ContactBucket(contact), cfg.contact, now);
    assert Allowed(rate, ContactBucket(contact), cfg.contact, now) <==>
             Room(rate, ContactBucket(contact), cfg.contact, now);
    assert HasText(ip) ==>
             (Running(rate1, IpBucket(ip.value), now) <==> Running(rate, IpBucket(ip.value), now));
  }

  /** A request is sent exactly when each of its buckets has room. A refused one
      leaves sessions and sent codes as they were. */
  lemma CodeSentIff(
    cfg: Config, st: Store, now: int, contact: string, otpMethod: OtpMethod, ip: Option<string>,
    device: Option<string>, id: nat, code: string)
    ensures var (st', reply) := Apply(cfg, st, now, RequestOtp(contact, otpMethod, ip, device, id, code));
            && (reply.OtpSent? <==>
                  && Room(st.rate, ContactBucket(contact), cfg.contact, now)
                  && (HasText(ip) ==>
                        Room(st.rate, IpBucket(ip.value), if otpMethod.Sms? then cfg.smsIp else cfg.ip, now))
                  && (HasText(device) ==> Room(st.rate, DeviceBucket(device.value), cfg.device, now)))
            && (!reply.OtpSent? ==> reply.RateLimited? && st'.sessions == st.sessions && st'.sends == st.sends)
            && (reply.OtpSent? ==>
                  && st'.sends == st.sends + [Send(contact, otpMethod, ip, device, now, 0)]
                  && st'.sessions == st.sessions[id := Session(otpMethod, contact, code, 0, now + cfg.ttlSeconds * 1000,
                                                               |st.sends|)])
  {
    AllowedIff(cfg, st.rate, contact, otpMethod, ip, device, now);
  }

  /** A resend is for the session's own contact and method: refused for a dead session,
      sent exactly when each of its buckets has room, and then the session has a new
      code, its full lifetime and all its attempts again. */
  lemma ResendSentIff(
    cfg: Config, st: Store, now: int, id: nat, ip: Option<string>, device: Option<string>, code: string)
    ensures var (st', reply) := Apply(cfg, st, now, Resend(id, ip, device, code));
            && (reply.InvalidOtp? <==> !(id in st.sessions && now < st.sessions[id].expireAt))
            && (!reply.OtpSent? ==> st'.sessions == st.sessions && st'.sends == st.sends)
            && (reply.InvalidOtp? ==> st'.rate == st.rate)
            && (!reply.InvalidOtp? ==>
                  var s := st.sessions[id];
                  && (reply.OtpSent? || reply.RateLimited?)
                  && (reply.OtpSent? <==>
                        && Room(st.rate, ContactBucket(s.contact), cfg.contact, now)
                        && (HasText(ip) ==>
                              Room(st.rate, IpBucket(ip.value), if s.otpMethod.Sms? then cfg.smsIp else cfg.ip, now))
                        && (HasText(device) ==> Room(st.rate, DeviceBucket(device.value), cfg.device, now)))
                  && (reply.OtpSent? ==>
                        && st'.sends == st.sends + [Send(s.contact, s.otpMethod, ip, device, now, 0)]
                        && st'.sessions == st.sessions[id := Session(s.otpMethod, s.contact, code, 0,
                                                                     now + cfg.ttlSeconds * 1000, |st.sends|)]))
  {
    if Live(st.sessions, id, now) {
      AllowedIff(cfg, st.rate, st.sessions[id].contact, st.sessions[id].otpMethod, ip, device, now);
    }
  }

  // -------------------------------------------------------------------------
  // Counting codes
  // -------------------------------------------------------------------------

  /** The code was sent through the bucket. */
  predicate Through(s: Send, bucket: Bucket) {
    match bucket
    case ContactBucket(contact) => s.contact == contact
    case IpBucket(ip) => HasText(s.ip) && s.ip.value == ip
    case DeviceBucket(device) => HasText(s.device) && s.device.value == device
  }

  /** Codes sent through a bucket by some of the methods at times in [from, to). */
  function CountSends(sends: seq<Send>, bucket: Bucket, methods: set<OtpMethod>, from: int, to: int): nat {
    if sends == [] then 0
    else
      var last := sends[|sends| - 1];
      CountSends(sends[..|sends| - 1], bucket, methods, from, to)
      + if Through(last, bucket) && last.otpMethod in methods && from <= last.at < to then 1 else 0
  }

  lemma CountSendsAppend(sends: seq<Send>, s: Send, bucket: Bucket, methods: set<OtpMethod>, from: int, to: int)
    ensures CountSends(sends + [s], bucket, methods, from, to)
         == CountSends(sends, bucket, methods, from, to)
            + if Through(s, bucket) && s.otpMethod in methods && from <= s.at < to then 1 else 0
  {
    assert (sends + [s])[..|sends|] == sends;
  }

  lemma {:induction false} CountSendsSame(
    sends: seq<Send>, sends': seq<Send>, bucket: Bucket, methods: set<OtpMethod>, from: int, to: int)
    requires |sends| == |sends'|
    requires forall i :: 0 <= i < |sends| ==> sends'[i] == sends[i].(wrong := sends'[i].wrong)
    ensures CountSends(sends', bucket, methods, from, to) == CountSends(sends, bucket, methods, from, to)
  {
    if sends == [] {
    } else {
      CountSendsSame(sends[..|sends| - 1], sends'[..|sends| - 1], bucket, methods, from, to);
    }
  }

  // -------------------------------------------------------------------------
  // Metering a bucket
  // -------------------------------------------------------------------------

  /** A product by repeated addition. */
  function Times(a: nat, j: nat): nat {
    if j == 0 then 0 else Times(a, j - 1) + a
  }

  lemma {:induction false} TimesIs(a: nat, j: nat)
    ensures Times(a, j) == a * j == j * a
  {
    if j > 0 {
      TimesIs(a, j - 1);
      assert a * j == a * (j - 1) + a;
    }
  }

  lemma {:induction false} TimesMonotone(a: nat, j: nat, k: nat)
    requires j <= k
    ensures Times(a, j) <= Times(a, k)
    decreases k
  {
    if j < k {
      TimesMonotone(a, j, k - 1);
    }
  }

  /** What is counted of a bucket: codes of some methods, of which a window lets max
      through, sent in [from, to). Windows are at least width long, and the first one
      that counts ends no earlier than one width after base. */
  datatype Meter = Meter(bucket: Bucket, methods: set<OtpMethod>, max: nat, width: nat, base: int, from: int, to: int)
  {
    function Count(sends: seq<Send>): nat {
      CountSends(sends, bucket, methods, from, to)
    }

    /** The end of the width number j after base. */
    function Mark(j: nat): int {
      base + Times(width, j)
    }
  }

  function LimitOf(cfg: Config, bucket: Bucket, otpMethod: OtpMethod): Limit {
    match bucket
    case ContactBucket(_) => cfg.contact
    case IpBucket(_) => if otpMethod.Sms? then cfg.smsIp else cfg.ip
    case DeviceBucket(_) => cfg.device
  }

  /** The meter is right for runs that use only the given methods. */
  ghost predicate Fits(m: Meter, cfg: Config, used: set<OtpMethod>) {
    && 0 < m.width && m.base <= m.from && (m.base + m.width <= m.from + 1 || m.base <= 0)
    && (forall x :: x in used ==> m.width <= LimitOf(cfg, m.bucket, x).windowSeconds * 1000)
    && (forall x :: x in m.methods ==> LimitOf(cfg, m.bucket, x).max <= m.max)
  }

  function Min(a: nat, b: nat): nat {
    if a < b then a else b
  }

  /** j full windows and what the running one has let through, at most. */
  ghost predicate Metered(m: Meter, rate: map<Bucket, Counter>, clock: int, n: nat, j: nat) {
    && (m.bucket in rate ==> m.width <= rate[m.bucket].expireAt)
    && (n > 0 ==> n <= Times(m.max, j) + m.max && m.Mark(j) < m.to)
    && (n > 0 && clock < m.to ==>
          && m.bucket in rate
          && n <= Times(m.max, j) + Min(rate[m.bucket].count, m.max)
          && m.Mark(j) + m.width <= rate[m.bucket].expireAt)
  }

  /** One use of the bucket; a code it lets through counts if the meter says so. */
  lemma UseKeepsMetered(
    m: Meter, cfg: Config, used: set<OtpMethod>, limit: Limit, rate: map<Bucket, Counter>,
    rate': map<Bucket, Counter>, clock: int, now: int, n: nat, j: nat, counts: bool) returns (j': nat)
    requires Fits(m, cfg, used) && Metered(m, rate, clock, n, j) && clock <= now && 0 <= now
    requires CountedOnce(rate, rate', m.bucket, limit, now) && m.width <= limit.windowSeconds * 1000
    requires counts ==> rate'[m.bucket].count <= m.max && m.from <= now < m.to
    ensures Metered(m, rate', now, if counts then n + 1 else n, j')
  {
    if n == 0 {
      j' := 0;
    } else if now < m.to && !Running(rate, m.bucket, now) {
      j' := j + 1;
    } else {
      j' := j;
    }
  }

  lemma IdleKeepsMetered(
    m: Meter, rate: map<Bucket, Counter>, rate': map<Bucket, Counter>, clock: int, now: int, n: nat, j: nat)
    requires Metered(m, rate, clock, n, j) && clock <= now && Untouched(rate, rate', m.bucket)
    ensures Metered(m, rate', now, n, j)
  {
  }

  /** What a request does to a bucket: a use within the limit if it lets the code
      through, and otherwise a use or nothing. */
  predicate Charges(
    cfg: Config, rate: map<Bucket, Counter>, rate': map<Bucket, Counter>, allowed: bool, s: Send, bucket: Bucket,
    now: int)
  {
    var limit := LimitOf(cfg, bucket, s.otpMethod);
    && (CountedOnce(rate, rate', bucket, limit, now) || Untouched(rate, rate', bucket))
    && (allowed && Through(s, bucket) ==>
          CountedOnce(rate, rate', bucket, limit, now) && rate'[bucket].count <= limit.max)
  }

  lemma RequestCharges(cfg: Config, rate: map<Bucket, Counter>, s: Send, bucket: Bucket, now: int)
    ensures var (rate', allowed) := RateLimits(cfg, rate, s.contact, s.otpMethod, s.ip, s.device, now);
            Charges(cfg, rate, rate', allowed, s, bucket, now)
  {
    AllowedIff(cfg, rate, s.contact, s.otpMethod, s.ip, s.device, now);
    CountersAfter(cfg, rate, s.contact, s.otpMethod, s.ip, s.device, now, bucket);
  }

  /** A request, or the resend of a session, with its limits. */
  lemma RequestKeepsMetered(
    m: Meter, cfg: Config, used: set<OtpMethod>, st: Store, s: Send, now: int, j: nat, rate': map<Bucket, Counter>,
    allowed: bool) returns (j': nat)
    requires Fits(m, cfg, used) && Metered(m, st.rate, st.clock, m.Count(st.sends), j)
    requires st.clock <= now && 0 <= now && s.at == now && s.otpMethod in used
    requires Charges(cfg, st.rate, rate', allowed, s, m.bucket, now)
    ensures Metered(m, rate', now, m.Count(if allowed then st.sends + [s] else st.sends), j')
  {
    var limit := LimitOf(cfg, m.bucket, s.otpMethod);
    var counts := allowed && Through(s, m.bucket) && s.otpMethod in m.methods && m.from <= now < m.to;
    CountSendsAppend(st.sends, s, m.bucket, m.methods, m.from, m.to);
    if CountedOnce(st.rate, rate', m.bucket, limit, now) {
      j' := UseKeepsMetered(m, cfg, used, limit, st.rate, rate', st.clock, now, m.Count(st.sends), j, counts);
    } else {
      j' := j;
      IdleKeepsMetered(m, st.rate, rate', st.clock, now, m.Count(st.sends), j);
    }
  }

  // -------------------------------------------------------------------------
  // Runs
  // -------------------------------------------------------------------------

  /** All requests of the run are for these methods. */
  ghost predicate UsesOnly(ops: seq<TimedOp>, used: set<OtpMethod>) {
    forall i :: 0 <= i < |ops| && ops[i].op.RequestOtp? ==> ops[i].op.otpMethod in used
  }

  ghost predicate SessionsUse(st: Store, used: set<OtpMethod>) {
    forall id :: id in st.sessions ==> st.sessions[id].otpMethod in used
  }

  lemma SentOrNotKeepsMetered(m: Meter, cfg: Config, used: set<OtpMethod>, st: Store, s: Send, now: int, j: nat)
    returns (j': nat)
    requires Fits(m, cfg, used) && Metered(m, st.rate, st.clock, m.Count(st.sends), j)
    requires st.clock <= now && 0 <= now && s.at == now && s.otpMethod in used
    ensures var (rate, allowed) := RateLimits(cfg, st.rate, s.contact, s.otpMethod, s.ip, s.device, now);
            Metered(m, rate, now, m.Count(if allowed then st.sends + [s] else st.sends), j')
  {
    RequestCharges(cfg, st.rate, s, m.bucket, now);
    var (rate, allowed) := RateLimits(cfg, st.rate, s.contact, s.otpMethod, s.ip, s.device, now);
    j' := RequestKeepsMetered(m, cfg, used, st, s, now, j, rate, allowed);
  }

  lemma CheckKeepsMetered(m: Meter, cfg: Config, st: Store, now: int, op: Op, j: nat)
    requires op.Verify? && Metered(m, st.rate, st.clock, m.Count(st.sends), j) && st.clock <= now
    ensures var st' := Apply(cfg, st, now, op).0;
            Metered(m, st'.rate, now, m.Count(st'.sends), j)
  {
    var st' := Apply(cfg, st, now, op).0;
    CountSendsSame(st.sends, st'.sends, m.bucket, m.methods, m.from, m.to);
    IdleKeepsMetered(m, st.rate, st'.rate, st.clock, now, m.Count(st.sends), j);
  }

  lemma ApplyKeepsMetered(m: Meter, cfg: Config, used: set<OtpMethod>, st: Store, now: int, op: Op, j: nat)
    returns (j': nat)
    requires Fits(m, cfg, used) && Metered(m, st.rate, st.clock, m.Count(st.sends), j) && SessionsUse(st, used)
    requires st.clock <= now && 0 <= now && (op.RequestOtp? ==> op.otpMethod in used)
    ensures var st' := Apply(cfg, st, now, op).0;
            Metered(m, st'.rate, now, m.Count(st'.sends), j')
  {
    j' := j;
    match op {
      case RequestOtp(contact, otpMethod, ip, device, id, otpHash) =>
        j' := SentOrNotKeepsMetered(m, cfg, used, st, Send(contact, otpMethod, ip, device, now, 0), now, j);
      case Resend(id, ip, device, otpHash) =>
        if Live(st.sessions, id, now) {
          var s := st.sessions[id];
          j' := SentOrNotKeepsMetered(m, cfg, used, st, Send(s.contact, s.otpMethod, ip, device, now, 0), now, j);
        } else {
          IdleKeepsMetered(m, st.rate, st.rate, st.clock, now, m.Count(st.sends), j);
        }
      case Verify(_, _) =>
        CheckKeepsMetered(m, cfg, st, now, op, j);
    }
  }

  lemma ApplyKeepsMethods(cfg: Config, used: set<OtpMethod>, st: Store, now: int, op: Op)
    requires SessionsUse(st, used) && (op.RequestOtp? ==> op.otpMethod in used)
    ensures SessionsUse(Apply(cfg, st, now, op).0, used) && Apply(cfg, st, now, op).0.clock == now
  {
  }

  lemma {:induction false} RunKeepsMetered(m: Meter, cfg: Config, used: set<OtpMethod>, ops: seq<TimedOp>)
    returns (j: nat)
    requires Fits(m, cfg, used) && InOrder(ops) && UsesOnly(ops, used)
    ensures var st := Run(cfg, ops);
            Metered(m, st.rate, st.clock, m.Count(st.sends), j) && SessionsUse(st, used)
            && st.clock == if ops == [] then 0 else ops[|ops| - 1].at
    decreases |ops|
  {
    if ops == [] {
      j := 0;
    } else {
      var before := ops[..|ops| - 1];
      var last := ops[|ops| - 1];
      j := RunKeepsMetered(m, cfg, used, before);
      ApplyKeepsMethods(cfg, used, Run(cfg, before), last.at, last.op);
      j := ApplyKeepsMetered(m, cfg, used, Run(cfg, before), last.at, last.op, j);
    }
  }

  /** k widths after base see at most k times the maximum. */
  lemma Bounded(m: Meter, cfg: Config, used: set<OtpMethod>, ops: seq<TimedOp>, k: nat)
    requires Fits(m, cfg, used) && InOrder(ops) && UsesOnly(ops, used) && m.to <= m.Mark(k)
    ensures m.Count(Run(cfg, ops).sends) <= Times(m.max, k)
  {
    var j := RunKeepsMetered(m, cfg, used, ops);
    if j >= k {
      TimesMonotone(m.width, k, j);
    } else {
      TimesMonotone(m.max, j + 1, k);
    }
  }

  // -------------------------------------------------------------------------
  // Bounds over whole runs
  // -------------------------------------------------------------------------

  const BOTH := {Email, Sms}

  lemma MethodInBoth(x: OtpMethod)
    ensures x in BOTH
  {
    match x case Email => case Sms =>
  }

  lemma UsesBoth(ops: seq<TimedOp>)
    ensures UsesOnly(ops, BOTH)
  {
    forall i | 0 <= i < |ops| && ops[i].op.RequestOtp?
      ensures ops[i].op.otpMethod in BOTH
    {
      MethodInBoth(ops[i].op.otpMethod);
    }
  }

  function WindowMs(limit: Limit): nat {
    limit.windowSeconds * 1000
  }

  function Max(limit: Limit): nat {
    if limit.max > 0 then limit.max else 0
  }

  lemma IntervalBound(
    cfg: Config, used: set<OtpMethod>, ops: seq<TimedOp>, bucket: Bucket, methods: set<OtpMethod>, max: nat, width: nat,
    from: int, k: nat)
    requires InOrder(ops) && UsesOnly(ops, used) && 0 < width
    requires forall x :: x in used ==> width <= WindowMs(LimitOf(cfg, bucket, x))
    requires forall x :: x in methods ==> LimitOf(cfg, bucket, x).max <= max
    ensures CountSends(Run(cfg, ops).sends, bucket, methods, from, from + Times(width, k)) <= Times(max, k + 1)
  {
    var m := Meter(bucket, methods, max, width, from - width + 1, from, from + Times(width, k));
    Bounded(m, cfg, used, ops, k + 1);
  }

  /** Any half-open interval of k windows of the contact's limit sees at most (k + 1)
      times that limit of codes for one contact. */
  lemma SendsPerInterval(cfg: Config, ops: seq<TimedOp>, contact: string, from: int, k: nat)
    requires cfg.contact.windowSeconds > 0 && InOrder(ops)
    ensures CountSends(Run(cfg, ops).sends, ContactBucket(contact), BOTH, from, from + Times(WindowMs(cfg.contact), k))
         <= Times(Max(cfg.contact), k + 1)
  {
    UsesBoth(ops);
    IntervalBound(cfg, BOTH, ops, ContactBucket(contact), BOTH, Max(cfg.contact), WindowMs(cfg.contact), from, k);
  }

  /** The same for a device. */
  lemma DeviceSendsPerInterval(cfg: Config, ops: seq<TimedOp>, device: string, from: int, k: nat)
    requires cfg.device.windowSeconds > 0 && InOrder(ops)
    ensures CountSends(Run(cfg, ops).sends, DeviceBucket(device), BOTH, from, from + Times(WindowMs(cfg.device), k))
         <= Times(Max(cfg.device), k + 1)
  {
    UsesBoth(ops);
    IntervalBound(cfg, BOTH, ops, DeviceBucket(device), BOTH, Max(cfg.device), WindowMs(cfg.device), from, k);
  }

  /** And for an address, in runs that use one method only: k windows of that
      method's own limit. */
  lemma AddressSendsPerInterval(cfg: Config, ops: seq<TimedOp>, otpMethod: OtpMethod, ip: string, from: int, k: nat)
    requires InOrder(ops) && UsesOnly(ops, {otpMethod})
    requires (if otpMethod.Sms? then cfg.smsIp else cfg.ip).windowSeconds > 0
    ensures var limit := if otpMethod.Sms? then cfg.smsIp else cfg.ip;
            CountSends(Run(cfg, ops).sends, IpBucket(ip), {otpMethod}, from, from + Times(WindowMs(limit), k))
            <= Times(Max(limit), k + 1)
  {
    var limit := if otpMethod.Sms? then cfg.smsIp else cfg.ip;
    forall x | x in {otpMethod}
      ensures LimitOf(cfg, IpBucket(ip), x) == limit
    {
    }
    assert 0 < WindowMs(limit) && limit.max <= Max(limit);
    IntervalBound(cfg, {otpMethod}, ops, IpBucket(ip), {otpMethod}, Max(limit), WindowMs(limit), from, k);
  }

  /** The two methods share the address's counter: in any run the codes of one method
      stay within that method's maximum for every window of the shorter length. */
  lemma AddressSendsOfMethod(cfg: Config, ops: seq<TimedOp>, otpMethod: OtpMethod, ip: string, from: int, k: nat)
    requires InOrder(ops) && cfg.ip.windowSeconds > 0 && cfg.smsIp.windowSeconds > 0
    ensures var limit := if otpMethod.Sms? then cfg.smsIp else cfg.ip;
            var width := Min(WindowMs(cfg.ip), WindowMs(cfg.smsIp));
            CountSends(Run(cfg, ops).sends, IpBucket(ip), {otpMethod}, from, from + Times(width, k))
            <= Times(Max(limit), k + 1)
  {
    var limit := if otpMethod.Sms? then cfg.smsIp else cfg.ip;
    var width := Min(WindowMs(cfg.ip), WindowMs(cfg.smsIp));
    UsesBoth(ops);
    IntervalBound(cfg, BOTH, ops, IpBucket(ip), {otpMethod}, Max(limit), width, from, k);
  }

  // -------------------------------------------------------------------------
  // Wrong guesses over whole runs
  // -------------------------------------------------------------------------

  /** Wrong guesses compared with the codes of a contact. */
  function CountWrong(sends: seq<Send>, contact: string): nat {
    if sends == [] then 0
    else
      var last := sends[|sends| - 1];
      CountWrong(sends[..|sends| - 1], contact) + if last.contact == contact then last.wrong else 0
  }

  function CeilDiv(a: int, b: int): int
    requires b > 0
  {
    (a + b - 1) / b
  }

  lemma CeilDivCovers(a: int, b: int)
    requires a >= 0 && b > 0
    ensures 0 <= CeilDiv(a, b) && a <= CeilDiv(a, b) * b
  {
  }

  lemma MulMonotone(a: nat, b: int, c: int)
    requires b <= c
    ensures a * b <= a * c
  {
  }

  lemma {:induction false} WrongBoundedBySends(cfg: Config, sends: seq<Send>, contact: string, until: int)
    requires forall i :: 0 <= i < |sends| ==> sends[i].wrong <= GuessCap(cfg) && 0 <= sends[i].at < until
    ensures CountWrong(sends, contact) <= GuessCap(cfg) * CountSends(sends, ContactBucket(contact), BOTH, 0, until)
  {
    if sends == [] {
    } else {
      var rest := sends[..|sends| - 1];
      WrongBoundedBySends(cfg, rest, contact, until);
      MethodInBoth(sends[|sends| - 1].otpMethod);
      var n := CountSends(rest, ContactBucket(contact), BOTH, 0, until);
      assert GuessCap(cfg) * (n + 1) == GuessCap(cfg) * n + GuessCap(cfg);
    }
  }

  lemma {:induction false} SendsBefore(cfg: Config, ops: seq<TimedOp>, until: int)
    requires InOrder(ops) && forall i :: 0 <= i < |ops| ==> ops[i].at < until
    ensures forall i :: 0 <= i < |Run(cfg, ops).sends| ==> 0 <= Run(cfg, ops).sends[i].at < until
    decreases |ops|
  {
    if ops == [] {
    } else {
      SendsBefore(cfg, ops[..|ops| - 1], until);
    }
  }

  /** Before any time T, at most A * M * ceil(T / W) wrong guesses are compared for
      a contact: A guesses a code, M codes a window, windows of length W. */
  lemma WrongGuessesBounded(cfg: Config, ops: seq<TimedOp>, contact: string, until: int)
    requires cfg.contact.windowSeconds > 0 && InOrder(ops) && until >= 0
    requires forall i :: 0 <= i < |ops| ==> ops[i].at < until
    ensures CountWrong(Run(cfg, ops).sends, contact)
         <= GuessCap(cfg) * (CeilDiv(until, WindowMs(cfg.contact)) * Max(cfg.contact))
  {
    var k := CeilDiv(until, WindowMs(cfg.contact));
    var m := Meter(ContactBucket(contact), BOTH, Max(cfg.contact), WindowMs(cfg.contact), 0, 0, until);
    CeilDivCovers(until, WindowMs(cfg.contact));
    UsesBoth(ops);
    TimesIs(m.width, k);
    TimesIs(m.max, k);
    Bounded(m, cfg, BOTH, ops, k);
    RunKeepsGuesses(cfg, ops);
    SendsBefore(cfg, ops, until);
    WrongBoundedBySends(cfg, Run(cfg, ops).sends, contact, until);
    MulMonotone(GuessCap(cfg), m.Count(Run(cfg, ops).sends), k * Max(cfg.contact));
  }
}
