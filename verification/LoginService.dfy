/** Login and refresh as the service performs them, one check after the other, on the
    in-memory revocation store. */
module LoginService {
  import opened Text
  import opened Revocation
  import Rotation = RefreshRotation

  type Claims = Rotation.Claims

  const SECOND := Rotation.SECOND

  datatype AuthError = InvalidToken | TokenRevoked

  datatype Result = Tokens(access: Claims, refresh: Claims) | Refused(error: AuthError)

  /** The clock readings of one refresh: verifying the token, the two revocation checks,
      dating the new tokens, and the two readings inside `revoke_once`. */
  datatype Readings = Readings(
    verify: Instant, jtiCheck: Instant, familyCheck: Instant, dated: Instant, purge: Instant, mark: Instant)

  predicate Ordered(r: Readings)
  {
    r.verify <= r.jtiCheck <= r.familyCheck <= r.dated <= r.purge <= r.mark
  }

  /** Microseconds in a second. */
  const MICROS := 1000000

  /** The token expires at that instant, rounded down to a second. */
  predicate EndsAt(c: Claims, end: Instant) { c.exp * MICROS <= end < (c.exp + 1) * MICROS }

  /** A token that continues the session of `tok`: it lives as long as it may, but not longer
      than the session. */
  predicate Continues(c: Claims, tok: Claims, lifeEnd: Instant)
  {
    && c.sid == tok.sid && c.sessionExp == tok.sessionExp
    && EndsAt(c, if lifeEnd <= tok.sessionExp * MICROS then lifeEnd else tok.sessionExp * MICROS)
  }

  /** A token a refresh may exchange: on the store it finds, at the times it looks. */
  predicate Acceptable(s: Store, tok: Claims, userOk: bool, r: Readings)
  {
    && tok.kind == Rotation.Refresh && userOk
    && tok.exp * SECOND > r.mark && tok.sessionExp * SECOND > r.dated
    && !HoldsToken(s, tok.jti, r.jtiCheck) && !HoldsFamily(s, tok.sid, r.familyCheck)
  }

  /** The refusals reported as a revoked token rather than an invalid one. */
  predicate ReportedRevoked(s: Store, tok: Claims, userOk: bool, r: Readings)
  {
    && tok.kind == Rotation.Refresh && tok.exp * SECOND > r.verify
    && ( || HoldsToken(s, tok.jti, r.jtiCheck)
         || HoldsFamily(s, tok.sid, r.familyCheck)
         || (userOk && tok.sessionExp * SECOND > r.dated && tok.exp * SECOND <= r.mark))
  }

  /** No one can tell the stores apart from `now` on, except through `jti`. */
  ghost predicate SameBut(s: Store, s': Store, jti: Id, now: Instant)
  {
    && (forall j, t: Instant :: t >= now && j != jti ==> HoldsToken(s', j, t) == HoldsToken(s, j, t))
    && (forall f, t: Instant :: t >= now ==> HoldsFamily(s', f, t) == HoldsFamily(s, f, t))
  }

  class LoginService {
    const store: InMemoryTokenRevocationStore

    constructor (store: InMemoryTokenRevocationStore)
      ensures this.store == store
    {
      this.store := store;
    }

    /** `login`, once the credentials are accepted: both tokens end with the session. */
    method Login(sid: Id, accessJti: Id, refreshJti: Id, now: Instant, accessSec: int, refreshSec: int)
      returns (access: Claims, refresh: Claims)
      ensures access == Rotation.FirstAccess(accessJti, sid, now, accessSec, refreshSec)
      ensures refresh == Rotation.FirstRefresh(refreshJti, sid, now, refreshSec)
      ensures access.kind == Rotation.Access && refresh.kind == Rotation.Refresh
      ensures access.jti == accessJti && refresh.jti == refreshJti && access.sid == refresh.sid == sid
      ensures access.sessionExp == refresh.sessionExp == refresh.exp && access.exp <= refresh.exp
      ensures EndsAt(refresh, now + refreshSec * MICROS)
      ensures EndsAt(access, now + (if accessSec <= refreshSec then accessSec else refreshSec) * MICROS)
    {
      var sessionEnd := now + refreshSec * SECOND;
      var sessionExp := Rotation.Seconds(sessionEnd);
      var accessEnd := Rotation.Min(now + accessSec * SECOND, sessionEnd);
      access := Rotation.Claims(Rotation.Access, accessJti, sid, sessionExp, Rotation.Seconds(accessEnd));
      refresh := Rotation.Claims(Rotation.Refresh, refreshJti, sid, sessionExp, Rotation.Seconds(sessionEnd));
    }

    /** `verify_refresh_token`: `None` when the token is good. */
    method VerifyRefreshToken(tok: Claims, r: Readings) returns (refusal: Option<AuthError>)
      requires Ordered(r)
      modifies store
      ensures refusal == None ==>
                && tok.kind == Rotation.Refresh && tok.exp * SECOND > r.verify
                && !HoldsToken(old(store.Value()), tok.jti, r.jtiCheck)
                && !HoldsFamily(old(store.Value()), tok.sid, r.familyCheck)
      ensures refusal == Some(InvalidToken) <==> tok.kind != Rotation.Refresh || tok.exp * SECOND <= r.verify
      ensures refusal == Some(TokenRevoked) ==>
                || HoldsToken(old(store.Value()), tok.jti, r.jtiCheck)
                || HoldsFamily(old(store.Value()), tok.sid, r.familyCheck)
      ensures SameBut(old(store.Value()), store.Value(), tok.jti, r.familyCheck)
      ensures refusal == None ==> store.Value() == Purge(Purge(old(store.Value()), r.jtiCheck), r.familyCheck)
    {
      if tok.kind != Rotation.Refresh || tok.exp * SECOND <= r.verify {
        return Some(InvalidToken);
      }
      var revoked := store.IsRevoked(tok.jti, r.jtiCheck);
      if revoked {
        return Some(TokenRevoked);
      }
      revoked := store.IsFamilyRevoked(tok.sid, r.familyCheck);
      if revoked {
        return Some(TokenRevoked);
      }
      refusal := None;
    }

    /** `refresh`, for a token whose signature is good. */
    method Refresh(
        tok: Claims, userOk: bool, r: Readings, accessJti: Id, refreshJti: Id, accessSec: int, refreshSec: int)
      returns (result: Result)
      requires Ordered(r)
      modifies store
      ensures result.Tokens? <==> Acceptable(old(store.Value()), tok, userOk, r)
      ensures result == Refused(TokenRevoked) <==> ReportedRevoked(old(store.Value()), tok, userOk, r)
      ensures result.Tokens? ==> result.access == Rotation.NewAccess(tok, accessJti, r.dated, accessSec)
      ensures result.Tokens? ==> result.refresh == Rotation.NewRefresh(tok, refreshJti, r.dated, refreshSec)
      ensures result.Tokens? ==>
                && result.access.kind == Rotation.Access && result.access.jti == accessJti
                && Continues(result.access, tok, r.dated + accessSec * MICROS)
                && result.refresh.kind == Rotation.Refresh && result.refresh.jti == refreshJti
                && Continues(result.refresh, tok, r.dated + refreshSec * MICROS)
      ensures result.Tokens? ==> Spent(store.Value(), tok)
      ensures SameBut(old(store.Value()), store.Value(), tok.jti, r.mark)
    {
      var refusal := VerifyRefreshToken(tok, r);
      if refusal.Some? {
        var error := refusal.value;
        assert error == InvalidToken || error == TokenRevoked;
        return Refused(error);
      }
      if !userOk || tok.sessionExp * SECOND <= r.dated {
        return Refused(InvalidToken);
      }
      var access := Rotation.NewAccess(tok, accessJti, r.dated, accessSec);
      var rotated := store.RevokeOnce(tok.jti, tok.exp * SECOND, r.purge, r.mark);
      if !rotated {
        return Refused(TokenRevoked);
      }
      result := Tokens(access, Rotation.NewRefresh(tok, refreshJti, r.dated, refreshSec));
    }
  }

  predicate Spent(s: Store, tok: Claims) { tok.jti in s.revoked && s.revoked[tok.jti] == tok.exp * SECOND }

  /** A spent token is never acceptable again, at any later time, whatever the store has
      seen since, as long as revocations of it name its own expiry. */
  lemma SpentTokenIsRefused(h: seq<Call>, i: nat, tok: Claims, userOk: bool, r: Readings)
    requires Ordered(r) && ClockOk(h, r.jtiCheck) && OneExpiry(h, tok.jti, tok.exp * SECOND)
    requires i < |h| && h[i].DoRevokeOnce? && h[i].jti == tok.jti
    ensures !Acceptable(After(h), tok, userOk, r)
  {
    TokenAgreesWithHistory(h, tok.jti, tok.exp * SECOND, r.jtiCheck);
  }
}
