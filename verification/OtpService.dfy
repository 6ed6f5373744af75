/** The OTP store and the service over it as objects updated in place. One call
    does exactly what the corresponding operation does to the store. */
module OtpService {
  import opened Wrappers
  import opened Domain
  import opened Otp
  import opened OtpLimits

  class RedisOtpStore {
    var rate: map<Bucket, Counter>
    var sessions: map<nat, Session>
    // What was dispatched, and the time of the last call.
    var sends: seq<Send>
    var clock: int

    function State(): Store
      reads this
    {
      Store(rate, sessions, sends, clock)
    }

    constructor ()
      ensures State() == EMPTY_STORE
    {
      rate, sessions, sends, clock := map[], map[], [], 0;
    }

    method ConsumeRateLimit(bucket: Bucket, limit: Limit, now: int) returns (allowed: bool)
      modifies this`rate
      ensures rate == Consumed(old(rate), bucket, limit, now)
      ensures allowed == Allowed(old(rate), bucket, limit, now)
    {
      var count := if bucket in rate && now < rate[bucket].expireAt then rate[bucket].count + 1 else 1;
      if count == 1 {
        rate := rate[bucket := Counter(count, now + limit.windowSeconds * 1000)];
      } else {
        rate := rate[bucket := Counter(count, rate[bucket].expireAt)];
      }
      allowed := count <= limit.max;
    }

    /** Stores a wrong guess; the session keeps its remaining lifetime in whole seconds. */
    method IncrementAttempts(id: nat, now: int) returns (attempts: nat)
      modifies this`sessions
      ensures !Live(old(sessions), id, now) ==> attempts == 0 && sessions == old(sessions)
      ensures Live(old(sessions), id, now) ==>
        && attempts == old(sessions)[id].attempts + 1
        && sessions == old(sessions)[id := old(sessions)[id].(
             attempts := attempts, expireAt := now + RemainingSeconds(old(sessions)[id].expireAt, now) * 1000)]
    {
      if !(id in sessions && now < sessions[id].expireAt) {
        return 0;
      }
      var existing := sessions[id];
      var ttl := (existing.expireAt - now + 500) / 1000;
      attempts := existing.attempts + 1;
      var expireSeconds := if ttl > 0 then ttl else 1;
      sessions := sessions[id := existing.(attempts := attempts, expireAt := now + expireSeconds * 1000)];
    }
  }

  class AuthService {
    const store: RedisOtpStore
    const cfg: Config

    constructor (store: RedisOtpStore, cfg: Config)
      ensures this.store == store && this.cfg == cfg
    {
      this.store := store;
      this.cfg := cfg;
    }

    method AssertOtpRateLimits(
      contact: string, otpMethod: OtpMethod, ip: Option<string>, device: Option<string>, now: int)
      returns (allowed: bool)
      modifies store`rate
      ensures (store.rate, allowed) == RateLimits(cfg, old(store.rate), contact, otpMethod, ip, device, now)
      ensures var ipLimit := if otpMethod.Sms? then cfg.smsIp else cfg.ip;
              var rate := old(store.rate);
              && CountedOnce(rate, store.rate, ContactBucket(contact), cfg.contact, now)
              && (HasText(ip) && Room(rate, ContactBucket(contact), cfg.contact, now) ==>
                    CountedOnce(rate, store.rate, IpBucket(ip.value), ipLimit, now))
              && (HasText(device) && allowed ==>
                    CountedOnce(rate, store.rate, DeviceBucket(device.value), cfg.device, now))
    {
      AllowedIff(cfg, store.rate, contact, otpMethod, ip, device, now);
      CountersAfter(cfg, store.rate, contact, otpMethod, ip, device, now, ContactBucket(contact));
      if HasText(ip) {
        CountersAfter(cfg, store.rate, contact, otpMethod, ip, device, now, IpBucket(ip.value));
      }
      if HasText(device) {
        CountersAfter(cfg, store.rate, contact, otpMethod, ip, device, now, DeviceBucket(device.value));
      }
      allowed := store.ConsumeRateLimit(ContactBucket(contact), cfg.contact, now);
      if !allowed {
        return;
      }
      if HasText(ip) {
        allowed := store.ConsumeRateLimit(IpBucket(ip.value), if otpMethod.Sms? then cfg.smsIp else cfg.ip, now);
        if !allowed {
          return;
        }
      }
      if HasText(device) {
        allowed := store.ConsumeRateLimit(DeviceBucket(device.value), cfg.device, now);
      }
    }

    method SendOtp(contact: string, otpMethod: OtpMethod, ip: Option<string>, device: Option<string>, now: int)
      modifies store`sends
      ensures store.sends == old(store.sends) + [Send(contact, otpMethod, ip, device, now, 0)]
    {
      store.sends := store.sends + [Send(contact, otpMethod, ip, device, now, 0)];
    }

    method Request(
      contact: string, otpMethod: OtpMethod, ip: Option<string>, device: Option<string>, id: nat, otpHash: string,
      now: int)
      returns (reply: Reply)
      modifies store
      ensures (store.State(), reply)
           == Apply(cfg, old(store.State()), now, RequestOtp(contact, otpMethod, ip, device, id, otpHash))
    {
      store.clock := now;
      var allowed := AssertOtpRateLimits(contact, otpMethod, ip, device, now);
      if !allowed {
        return RateLimited;
      }
      var session := Session(otpMethod, contact, otpHash, 0, now + cfg.ttlSeconds * 1000, |store.sends|);
      store.sessions := store.sessions[id := session];
      SendOtp(contact, otpMethod, ip, device, now);
      return OtpSent;
    }

    method SendAgain(id: nat, ip: Option<string>, device: Option<string>, otpHash: string, now: int)
      returns (reply: Reply)
      modifies store
      ensures (store.State(), reply) == Apply(cfg, old(store.State()), now, Resend(id, ip, device, otpHash))
    {
      store.clock := now;
      if !Live(store.sessions, id, now) {
        return InvalidOtp;
      }
      var session := store.sessions[id];
      var allowed := AssertOtpRateLimits(session.contact, session.otpMethod, ip, device, now);
      if !allowed {
        return RateLimited;
      }
      var updated := session.(otpHash := otpHash, attempts := 0, expireAt := now + cfg.ttlSeconds * 1000,
                              send := |store.sends|);
      store.sessions := store.sessions[id := updated];
      SendOtp(session.contact, session.otpMethod, ip, device, now);
      return OtpSent;
    }

    method Check(id: nat, guess: Option<string>, now: int) returns (reply: Reply)
      modifies store
      ensures (store.State(), reply) == Apply(cfg, old(store.State()), now, Verify(id, guess))
    {
      store.clock := now;
      if !Live(store.sessions, id, now) {
        return InvalidOtp;
      }
      if !HasText(guess) {
        return OtpMissing;
      }
      var session := store.sessions[id];
      if guess.value != session.otpHash {
        var attempts := store.IncrementAttempts(id, now);
        if session.send < |store.sends| {
          var send := store.sends[session.send];
          store.sends := store.sends[session.send := send.(wrong := send.wrong + 1)];
        }
        if attempts >= cfg.maxVerifyAttempts {
          assert store.sessions - {id} == old(store.sessions) - {id};
          store.sessions := store.sessions - {id};
        }
        return InvalidOtp;
      }
      store.sessions := store.sessions - {id};
      return OtpAccepted;
    }
  }
}
