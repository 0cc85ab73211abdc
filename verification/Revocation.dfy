/** The in-memory token revocation store and its meaning over a whole history. */
module Revocation {

  /** Microseconds since the epoch. */
  type Instant = int

  /** Token identifiers and session identifiers, already stripped. */
  type Id = string

  datatype Store = Store(revoked: map<Id, Instant>, families: map<Id, Instant>)

  const EMPTY := Store(map[], map[])

  function Unexpired(m: map<Id, Instant>, now: Instant): map<Id, Instant>
  {
    map k | k in m && m[k] > now :: m[k]
  }

  function Purge(s: Store, now: Instant): Store
  {
    Store(Unexpired(s.revoked, now), Unexpired(s.families, now))
  }

  /** Every operation reads the clock once to purge and, when it writes, once more. */
  function AfterRevoke(s: Store, jti: Id, until: Instant, purgeAt: Instant, now: Instant): Store
  {
    var p := Purge(s, purgeAt);
    if until > now then p.(revoked := p.revoked[jti := until]) else p
  }

  predicate CanRevokeOnce(s: Store, jti: Id, until: Instant, purgeAt: Instant, now: Instant)
  {
    jti !in Purge(s, purgeAt).revoked && until > now
  }

  function AfterRevokeOnce(s: Store, jti: Id, until: Instant, purgeAt: Instant, now: Instant): Store
  {
    var p := Purge(s, purgeAt);
    if CanRevokeOnce(s, jti, until, purgeAt, now) then p.(revoked := p.revoked[jti := until]) else p
  }

  function AfterRevokeFamily(s: Store, sid: Id, until: Instant, purgeAt: Instant, now: Instant): Store
  {
    var p := Purge(s, purgeAt);
    if until > now && (sid in p.families ==> until > p.families[sid])
    then p.(families := p.families[sid := until]) else p
  }

  predicate HoldsToken(s: Store, jti: Id, now: Instant) { jti in Purge(s, now).revoked }

  predicate HoldsFamily(s: Store, sid: Id, now: Instant) { sid in Purge(s, now).families }

  class InMemoryTokenRevocationStore {
    var revoked: map<Id, Instant>
    var families: map<Id, Instant>

    ghost function Value(): Store reads this { Store(revoked, families) }

    constructor ()
      ensures Value() == EMPTY
    {
      revoked, families := map[], map[];
    }

    /** The sweep `_purge_expired` makes over one dictionary. */
    static method Sweep(m: map<Id, Instant>, now: Instant) returns (kept: map<Id, Instant>)
      ensures kept == Unexpired(m, now)
    {
      kept := m;
      var todo := m.Keys;
      while todo != {}
        invariant todo <= m.Keys
        invariant forall k :: k in kept <==> k in m && (k in todo || m[k] > now)
        invariant forall k :: k in kept ==> kept[k] == m[k]
        decreases |todo|
      {
        var k :| k in todo;
        if m[k] <= now {
          kept := kept - {k};
        }
        todo := todo - {k};
      }
    }

    method PurgeExpired(now: Instant)
      modifies this
      ensures Value() == Purge(old(Value()), now)
    {
      revoked := Sweep(revoked, now);
      families := Sweep(families, now);
    }

    method Revoke(jti: Id, until: Instant, purgeAt: Instant, now: Instant)
      modifies this
      ensures Value() == AfterRevoke(old(Value()), jti, until, purgeAt, now)
    {
      PurgeExpired(purgeAt);
      if until > now {
        revoked := revoked[jti := until];
      }
    }

    method RevokeOnce(jti: Id, until: Instant, purgeAt: Instant, now: Instant) returns (ok: bool)
      modifies this
      ensures Value() == AfterRevokeOnce(old(Value()), jti, until, purgeAt, now)
      ensures ok <==> CanRevokeOnce(old(Value()), jti, until, purgeAt, now)
    {
      PurgeExpired(purgeAt);
      if jti in revoked || until <= now {
        return false;
      }
      revoked := revoked[jti := until];
      ok := true;
    }

    method IsRevoked(jti: Id, now: Instant) returns (yes: bool)
      modifies this
      ensures Value() == Purge(old(Value()), now)
      ensures yes <==> HoldsToken(old(Value()), jti, now)
    {
      PurgeExpired(now);
      yes := jti in revoked;
    }

    method RevokeFamily(sid: Id, until: Instant, purgeAt: Instant, now: Instant)
      modifies this
      ensures Value() == AfterRevokeFamily(old(Value()), sid, until, purgeAt, now)
    {
      PurgeExpired(purgeAt);
      if until > now {
        if sid !in families || until > families[sid] {
          families := families[sid := until];
        }
      }
    }

    method IsFamilyRevoked(sid: Id, now: Instant) returns (yes: bool)
      modifies this
      ensures Value() == Purge(old(Value()), now)
      ensures yes <==> HoldsFamily(old(Value()), sid, now)
    {
      PurgeExpired(now);
      yes := sid in families;
    }
  }

  // ---- agreement with the full history ----

  datatype Call =
    | DoRevoke(jti: Id, until: Instant, purgeAt: Instant, now: Instant)
    | DoRevokeOnce(jti: Id, until: Instant, purgeAt: Instant, now: Instant)
    | DoRevokeFamily(sid: Id, until: Instant, purgeAt: Instant, now: Instant)
    | DoQuery(purgeAt: Instant, now: Instant)

  function Do(s: Store, c: Call): Store
  {
    match c
    case DoRevoke(j, u, p, n) => AfterRevoke(s, j, u, p, n)
    case DoRevokeOnce(j, u, p, n) => AfterRevokeOnce(s, j, u, p, n)
    case DoRevokeFamily(f, u, p, n) => AfterRevokeFamily(s, f, u, p, n)
    case DoQuery(p, _) => Purge(s, p)
  }

  function After(h: seq<Call>): Store
  {
    if h == [] then EMPTY else Do(After(h[..|h| - 1]), h[|h| - 1])
  }

  /** The clock never goes back, within a call or between calls, up to `end`. */
  predicate ClockOk(h: seq<Call>, end: Instant)
  {
    h == [] || (var c := h[|h| - 1];
                c.purgeAt <= c.now <= end && ClockOk(h[..|h| - 1], c.purgeAt))
  }

  ghost predicate RevokedInHistory(h: seq<Call>, sid: Id, now: Instant)
  {
    exists i :: 0 <= i < |h| && h[i].DoRevokeFamily? && h[i].sid == sid && h[i].until > now
  }

  /** Purging and keeping only the latest expiry lose nothing: a session counts as
      revoked exactly when some past revocation of it still lies in the future. */
  lemma {:induction false} FamilyAgreesWithHistory(h: seq<Call>, sid: Id, now: Instant)
    requires ClockOk(h, now)
    ensures HoldsFamily(After(h), sid, now) <==> RevokedInHistory(h, sid, now)
    decreases |h|
  {
    if h != [] {
      var c, past := h[|h| - 1], h[..|h| - 1];
      ClockLater(past, c.purgeAt, now);
      FamilyAgreesWithHistory(past, sid, now);
      assert h == past + [c];
      assert RevokedInHistory(h, sid, now) <==>
             RevokedInHistory(past, sid, now) || (c.DoRevokeFamily? && c.sid == sid && c.until > now) by {
        if RevokedInHistory(past, sid, now) {
          var i :| 0 <= i < |past| && past[i].DoRevokeFamily? && past[i].sid == sid && past[i].until > now;
          assert h[i] == past[i];
        }
      }
    }
  }

  lemma ClockLater(h: seq<Call>, end: Instant, later: Instant)
    requires ClockOk(h, end) && end <= later
    ensures ClockOk(h, later)
  {
  }

  /** Every revocation of `jti` names the same expiry, as a token's own expiry does. */
  predicate OneExpiry(h: seq<Call>, jti: Id, exp: Instant)
  {
    forall i :: 0 <= i < |h| && (h[i].DoRevoke? || h[i].DoRevokeOnce?) && h[i].jti == jti ==> h[i].until == exp
  }

  predicate TokenRevoked(h: seq<Call>, jti: Id)
  {
    exists i :: 0 <= i < |h| && (h[i].DoRevoke? || h[i].DoRevokeOnce?) && h[i].jti == jti
  }

  /** With the token's own expiry, a token counts as revoked exactly from its first
      revocation until that expiry. */
  lemma {:induction false} TokenAgreesWithHistory(h: seq<Call>, jti: Id, exp: Instant, now: Instant)
    requires ClockOk(h, now) && OneExpiry(h, jti, exp)
    ensures HoldsToken(After(h), jti, now) <==> TokenRevoked(h, jti) && exp > now
    ensures jti in After(h).revoked ==> After(h).revoked[jti] == exp
    decreases |h|
  {
    if h != [] {
      var c, past := h[|h| - 1], h[..|h| - 1];
      ClockLater(past, c.purgeAt, now);
      assert h == past + [c];
      TokenAgreesWithHistory(past, jti, exp, now);
      TokenAgreesWithHistory(past, jti, exp, c.purgeAt);
      assert TokenRevoked(h, jti) <==>
             TokenRevoked(past, jti) || ((c.DoRevoke? || c.DoRevokeOnce?) && c.jti == jti) by {
        if TokenRevoked(past, jti) {
          var i :| 0 <= i < |past| && (past[i].DoRevoke? || past[i].DoRevokeOnce?) && past[i].jti == jti;
          assert h[i] == past[i];
        }
      }
    }
  }

  /** The shared expiry is needed: `revoke` replaces a later expiry by an earlier one. */
  lemma RevokeCanShorten(jti: Id, long: Instant, short: Instant, now: Instant)
    requires now < short < long
    ensures var h := [DoRevoke(jti, long, now, now), DoRevoke(jti, short, now, now)];
            ClockOk(h, short) && TokenRevoked(h, jti) && !HoldsToken(After(h), jti, short)
  {
    var h := [DoRevoke(jti, long, now, now), DoRevoke(jti, short, now, now)];
    assert h[..1] == [h[0]] && h[..1][..0] == [];
    assert After(h[..1]) == Do(EMPTY, h[0]);
    assert After(h) == Do(After(h[..1]), h[1]);
    assert h[0].jti == jti;
  }

  // ---- exactly when a token revocation is kept ----

  /** A `revoke` that would replace an expiry still ahead by an earlier one that is too. */
  predicate Shortens(s: Store, jti: Id, until: Instant, now: Instant)
  {
    jti in s.revoked && now < until < s.revoked[jti]
  }

  ghost predicate FreesNothing(s: Store, s': Store, now: Instant)
  {
    forall j, t: Instant :: t >= now && HoldsToken(s, j, t) ==> HoldsToken(s', j, t)
  }

  /** One `revoke` frees no token early exactly when it does not shorten. */
  lemma FreesNothingExactlyUnlessShortening(s: Store, jti: Id, until: Instant, purgeAt: Instant, now: Instant)
    requires purgeAt <= now
    ensures FreesNothing(s, AfterRevoke(s, jti, until, purgeAt, now), now) <==> !Shortens(s, jti, until, now)
  {
    var s' := AfterRevoke(s, jti, until, purgeAt, now);
    if Shortens(s, jti, until, now) {
      assert HoldsToken(s, jti, until) && !HoldsToken(s', jti, until);
    }
  }

  /** What one call promises: that the token counts as revoked at `t`. A `revoke_once` that
      returns false promises nothing. */
  predicate Promises(s: Store, c: Call, jti: Id, t: Instant)
  {
    || (c.DoRevoke? && c.jti == jti && c.until > t)
    || (c.DoRevokeOnce? && c.jti == jti && CanRevokeOnce(s, jti, c.until, c.purgeAt, c.now) && c.until > t)
  }

  predicate Promised(h: seq<Call>, jti: Id, t: Instant)
  {
    h != [] && (Promised(h[..|h| - 1], jti, t) || Promises(After(h[..|h| - 1]), h[|h| - 1], jti, t))
  }

  predicate KeptAt(h: seq<Call>, jti: Id, t: Instant) { HoldsToken(After(h), jti, t) <==> Promised(h, jti, t) }

  /** From `now` on the store says exactly what the history promised. */
  ghost predicate Kept(h: seq<Call>, jti: Id, now: Instant)
  {
    forall t: Instant :: t >= now ==> KeptAt(h, jti, t)
  }

  /** The same after every call of the history. */
  ghost predicate AlwaysKept(h: seq<Call>, jti: Id)
  {
    h == [] || (AlwaysKept(h[..|h| - 1], jti) && Kept(h, jti, h[|h| - 1].now))
  }

  predicate ShortensNow(s: Store, c: Call, jti: Id) { c.DoRevoke? && c.jti == jti && Shortens(s, jti, c.until, c.now) }

  predicate NeverShortens(h: seq<Call>, jti: Id)
  {
    h == [] || (NeverShortens(h[..|h| - 1], jti) && !ShortensNow(After(h[..|h| - 1]), h[|h| - 1], jti))
  }

  lemma KeptStep(s: Store, c: Call, jti: Id, t: Instant, promised: bool)
    requires c.purgeAt <= c.now <= t
    requires HoldsToken(s, jti, t) <==> promised
    requires !ShortensNow(s, c, jti)
    ensures HoldsToken(Do(s, c), jti, t) <==> promised || Promises(s, c, jti, t)
  {
  }

  lemma BrokenStep(s: Store, c: Call, jti: Id)
    requires c.purgeAt <= c.now && ShortensNow(s, c, jti)
    ensures HoldsToken(s, jti, c.until) && !HoldsToken(Do(s, c), jti, c.until) && c.until >= c.now
  {
  }

  /** Every revocation of a token is kept until the expiry it named, after every call of a
      history, if and only if no `revoke` of it shortens an expiry still ahead. */
  lemma {:induction false} KeptExactlyUnlessShortened(h: seq<Call>, jti: Id, now: Instant)
    requires ClockOk(h, now)
    ensures AlwaysKept(h, jti) <==> NeverShortens(h, jti)
    decreases |h|
  {
    if h != [] {
      var c, past := h[|h| - 1], h[..|h| - 1];
      KeptExactlyUnlessShortened(past, jti, c.purgeAt);
      if AlwaysKept(past, jti) {
        KeptSoFar(past, jti, c.purgeAt);
        if ShortensNow(After(past), c, jti) {
          BrokenStep(After(past), c, jti);
          assert KeptAt(past, jti, c.until);
          assert !KeptAt(h, jti, c.until);
        } else {
          forall t: Instant | t >= c.now ensures KeptAt(h, jti, t) {
            assert KeptAt(past, jti, t);
            KeptStep(After(past), c, jti, t, Promised(past, jti, t));
          }
        }
      }
    }
  }

  lemma KeptSoFar(h: seq<Call>, jti: Id, now: Instant)
    requires ClockOk(h, now) && AlwaysKept(h, jti)
    ensures Kept(h, jti, now)
  {
    if h != [] {
      assert h[|h| - 1].now <= now;
    }
  }
}
