/** Access tokens: the blocklist that a logout writes and the guard that reads it. */
module Blocklist {
  // A key is certain to be there before its expiry; nothing is assumed at or after it.

  class TokenService {
    // Expiry of each blocklist key, in epoch milliseconds.
    var blocked: map<string, int>

    constructor ()
      ensures blocked == map[]
    {
      blocked := map[];
    }

    method BlockAccessToken(jti: string, exp: int, now: int)
      modifies this
      ensures forall later: int :: now <= later ==> !Accepted(blocked, jti, exp, later)
      ensures forall other: string, e: int, later: int :: other != jti ==>
                (Accepted(blocked, other, e, later) <==> Accepted(old(blocked), other, e, later))
      ensures now < exp * 1000 ==> jti in blocked && blocked[jti] == exp * 1000
      ensures exp * 1000 <= now ==> blocked == old(blocked)
    {
      var ttlMs := exp * 1000 - now;
      if ttlMs <= 0 {
        return;
      }
      blocked := blocked[jti := now + ttlMs];
    }

    /** The guard: an unexpired token that is not on the blocklist. */
    method CanActivate(jti: string, exp: int, now: int) returns (ok: bool)
      ensures ok <==> Accepted(blocked, jti, exp, now)
    {
      if now / 1000 >= exp {
        return false;
      }
      var found := jti in blocked && now < blocked[jti];
      return !found;
    }
  }

  function Block(blocked: map<string, int>, jti: string, exp: int, now: int): map<string, int> {
    var ttlMs := exp * 1000 - now;
    if ttlMs <= 0 then blocked else blocked[jti := now + ttlMs]
  }

  predicate Accepted(blocked: map<string, int>, jti: string, exp: int, now: int) {
    now / 1000 < exp && !(jti in blocked && now < blocked[jti])
  }

  datatype BlockOp = BlockOp(jti: string, exp: int, at: int)

  function BlockAll(blocked: map<string, int>, ops: seq<BlockOp>): map<string, int>
    decreases |ops|
  {
    if ops == [] then blocked else BlockAll(Block(blocked, ops[0].jti, ops[0].exp, ops[0].at), ops[1..])
  }

  /** A token id is signed together with one expiry. */
  ghost predicate OneExpiryPerToken(ops: seq<BlockOp>, jti: string, exp: int) {
    forall i :: 0 <= i < |ops| && ops[i].jti == jti ==> ops[i].exp == exp
  }

  lemma {:induction false} BlockedStays(blocked: map<string, int>, ops: seq<BlockOp>, jti: string, exp: int)
    requires jti in blocked && blocked[jti] == exp * 1000 && OneExpiryPerToken(ops, jti, exp)
    ensures jti in BlockAll(blocked, ops) && BlockAll(blocked, ops)[jti] == exp * 1000
    decreases |ops|
  {
    if ops == [] {
    } else {
      BlockedStays(Block(blocked, ops[0].jti, ops[0].exp, ops[0].at), ops[1..], jti, exp);
    }
  }

  /** From the moment it is blocked a token is rejected at every later millisecond,
      however many other tokens are blocked meanwhile: its key lasts exactly until
      the expiry check takes over. */
  lemma BlockedForGood(
    blocked: map<string, int>, jti: string, exp: int, at: int, later: seq<BlockOp>, now: int)
    requires at <= now && OneExpiryPerToken(later, jti, exp)
    ensures !Accepted(BlockAll(Block(blocked, jti, exp, at), later), jti, exp, now)
  {
    if exp * 1000 - at > 0 {
      BlockedStays(Block(blocked, jti, exp, at), later, jti, exp);
    }
  }

  /** A token that is never blocked is accepted exactly until it expires. */
  lemma UnblockedAcceptedIff(ops: seq<BlockOp>, jti: string, exp: int, now: int)
    requires forall i :: 0 <= i < |ops| ==> ops[i].jti != jti
    ensures Accepted(BlockAll(map[], ops), jti, exp, now) <==> now < exp * 1000
  {
    OthersUnaffected(map[], ops, jti, exp, now);
  }

  /** Blocking tokens never rejects another one. */
  lemma {:induction false} OthersUnaffected(blocked: map<string, int>, ops: seq<BlockOp>, jti: string, exp: int, now: int)
    requires forall i :: 0 <= i < |ops| ==> ops[i].jti != jti
    ensures Accepted(BlockAll(blocked, ops), jti, exp, now) <==> Accepted(blocked, jti, exp, now)
    decreases |ops|
  {
    if ops == [] {
    } else {
      OthersUnaffected(Block(blocked, ops[0].jti, ops[0].exp, ops[0].at), ops[1..], jti, exp, now);
    }
  }
}
