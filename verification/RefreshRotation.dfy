/** Refresh-token rotation as a concurrent protocol over the revocation store. Every
    suspension point of a refresh is a step of its own, so a run is any interleaving
    of logins, refreshes, revocations and the passing of time. */
module RefreshRotation {
  import opened Revocation

  const SECOND := 1_000_000

  datatype Kind = Access | Refresh

  /** The claims of a signed token; `exp` and `sessionExp` are whole seconds. */
  datatype Claims = Claims(kind: Kind, jti: Id, sid: Id, sessionExp: int, exp: int)

  /** Where a refresh stands, from its first check to the moment it returns. */
  datatype Phase =
    | Decoded(tok: Claims)
    | JtiChecked(tok: Claims)
    | FamilyChecked(tok: Claims)
    | Prepared(tok: Claims, now: Instant)
    | Rotated(tok: Claims, now: Instant)

  datatype Exchange = Exchange(pid: nat, tok: Claims)

  /** Who may continue a session: its newest token, or the refresh that has spent that
      token and not yet issued the next one. */
  datatype Holder = Token(jti: Id) | Minter(pid: nat)

  /** `started` numbers refreshes. The last three fields record the run: the tokens
      whose `revoke_once` returned true, each session's holder, and the refreshes that
      returned new tokens, in order. No step reads them. */
  datatype Sys = Sys(
    clock: Instant,
    store: Store,
    sessions: map<Id, int>,
    issued: map<Id, Claims>,
    started: nat,
    procs: map<nat, Phase>,
    rotated: set<Id>,
    holder: map<Id, Holder>,
    exchanged: seq<Exchange>)

  const INIT := Sys(0, EMPTY, map[], map[], 0, map[], {}, map[], [])

  /** A refresh that has passed both revocation checks. */
  predicate PastChecks(p: Phase) { p.FamilyChecked? || p.Prepared? || p.Rotated? }

  function Min(a: int, b: int): int { if a <= b then a else b }

  function Seconds(t: Instant): int { t / SECOND }

  datatype Step =
    | Tick(elapsed: nat)
    | Login(sid: Id, accessJti: Id, refreshJti: Id, accessSec: int, refreshSec: int)
    | Start(jti: Id)
    | CheckJti(pid: nat)
    | CheckFamily(pid: nat)
    | Prepare(pid: nat)
    | Rotate(pid: nat, lag: nat)
    | Issue(pid: nat, accessJti: Id, refreshJti: Id, accessSec: int, refreshSec: int)
    | Abort(pid: nat)
    | LogoutToken(jti: Id, lag: nat)
    | LogoutFamily(sid: Id, until: Instant, lag: nat)

  function Drop(s: Sys, pid: nat): Sys { s.(procs := s.procs - {pid}) }

  function Move(s: Sys, pid: nat, to: Phase): Sys { s.(procs := s.procs[pid := to]) }

  function WithStore(s: Sys, st: Store, clock: Instant): Sys { s.(store := st, clock := clock) }

  predicate FreshPair(s: Sys, a: Id, b: Id)
  {
    && a != b && a !in s.issued && b !in s.issued
    && a !in s.store.revoked && b !in s.store.revoked
  }

  function Issued(s: Sys, access: Claims, refresh: Claims): Sys
  {
    s.(issued := s.issued[access.jti := access][refresh.jti := refresh],
       holder := s.holder[refresh.sid := Token(refresh.jti)])
  }

  /** The tokens of a new session, which ends with its refresh token. */
  function FirstRefresh(jti: Id, sid: Id, now: Instant, refreshSec: int): Claims
  {
    var sessionExp := Seconds(now + refreshSec * SECOND);
    Claims(Refresh, jti, sid, sessionExp, sessionExp)
  }

  function FirstAccess(jti: Id, sid: Id, now: Instant, accessSec: int, refreshSec: int): Claims
  {
    var sessionEnd := now + refreshSec * SECOND;
    Claims(Access, jti, sid, Seconds(sessionEnd), Seconds(Min(now + accessSec * SECOND, sessionEnd)))
  }

  /** `login`, once the credentials have been accepted. */
  function DoLogin(s: Sys, sid: Id, aj: Id, rj: Id, accessSec: int, refreshSec: int): Sys
  {
    if sid in s.sessions || !FreshPair(s, aj, rj) then s
    else
      var access := FirstAccess(aj, sid, s.clock, accessSec, refreshSec);
      var refresh := FirstRefresh(rj, sid, s.clock, refreshSec);
      Issued(s.(sessions := s.sessions[sid := refresh.sessionExp]), access, refresh)
  }

  /** `verify_refresh_token`, up to the signature, type and `exp` checks. */
  function DoStart(s: Sys, jti: Id): Sys
  {
    if jti in s.issued && s.issued[jti].kind == Refresh && s.issued[jti].exp * SECOND > s.clock
    then s.(procs := s.procs[s.started := Decoded(s.issued[jti])], started := s.started + 1)
    else s
  }

  function DoCheckJti(s: Sys, pid: nat): Sys
  {
    if pid !in s.procs || !s.procs[pid].Decoded? then s
    else
      var tok := s.procs[pid].tok;
      var s' := s.(store := Purge(s.store, s.clock));
      if HoldsToken(s.store, tok.jti, s.clock) then Drop(s', pid) else Move(s', pid, JtiChecked(tok))
  }

  function DoCheckFamily(s: Sys, pid: nat): Sys
  {
    if pid !in s.procs || !s.procs[pid].JtiChecked? then s
    else
      var tok := s.procs[pid].tok;
      var s' := s.(store := Purge(s.store, s.clock));
      if HoldsFamily(s.store, tok.sid, s.clock) then Drop(s', pid) else Move(s', pid, FamilyChecked(tok))
  }

  /** The session-expiry check, on the clock reading the new tokens are dated with. */
  function DoPrepare(s: Sys, pid: nat): Sys
  {
    if pid !in s.procs || !s.procs[pid].FamilyChecked? then s
    else
      var tok := s.procs[pid].tok;
      if tok.sessionExp * SECOND <= s.clock then Drop(s, pid) else Move(s, pid, Prepared(tok, s.clock))
  }

  function Spend(s: Sys, pid: nat): Sys
    requires pid in s.procs && s.procs[pid].Prepared?
  {
    var tok := s.procs[pid].tok;
    Move(s, pid, Rotated(tok, s.procs[pid].now))
      .(rotated := s.rotated + {tok.jti}, holder := s.holder[tok.sid := Minter(pid)])
  }

  predicate CanSpend(s: Sys, tok: Claims, lag: nat)
  {
    CanRevokeOnce(s.store, tok.jti, tok.exp * SECOND, s.clock, s.clock + lag)
  }

  function TrySpend(s: Sys, tok: Claims, lag: nat): Sys
  {
    var end := s.clock + lag;
    WithStore(s, AfterRevokeOnce(s.store, tok.jti, tok.exp * SECOND, s.clock, end), end)
  }

  function DoRotate(s: Sys, pid: nat, lag: nat): Sys
  {
    if pid !in s.procs || !s.procs[pid].Prepared? then s
    else
      var tok := s.procs[pid].tok;
      var s' := TrySpend(s, tok, lag);
      if CanSpend(s, tok, lag) then Spend(s', pid) else Drop(s', pid)
  }

  function NewAccess(tok: Claims, jti: Id, now: Instant, accessSec: int): Claims
  {
    Claims(Access, jti, tok.sid, tok.sessionExp,
           Seconds(Min(now + accessSec * SECOND, tok.sessionExp * SECOND)))
  }

  function NewRefresh(tok: Claims, jti: Id, now: Instant, refreshSec: int): Claims
  {
    Claims(Refresh, jti, tok.sid, tok.sessionExp,
           Seconds(Min(now + refreshSec * SECOND, tok.sessionExp * SECOND)))
  }

  function DoIssue(s: Sys, pid: nat, aj: Id, rj: Id, accessSec: int, refreshSec: int): Sys
  {
    if pid !in s.procs || !s.procs[pid].Rotated? || !FreshPair(s, aj, rj) then s
    else
      var tok, now := s.procs[pid].tok, s.procs[pid].now;
      Issued(Drop(s, pid), NewAccess(tok, aj, now, accessSec), NewRefresh(tok, rj, now, refreshSec))
        .(exchanged := s.exchanged + [Exchange(pid, tok)])
  }

  /** Callers of `revoke` pass the token's own expiry. */
  function DoLogoutToken(s: Sys, jti: Id, lag: nat): Sys
  {
    if jti !in s.issued then s
    else WithStore(s, AfterRevoke(s.store, jti, s.issued[jti].exp * SECOND, s.clock, s.clock + lag), s.clock + lag)
  }

  function DoLogoutFamily(s: Sys, sid: Id, until: Instant, lag: nat): Sys
  {
    WithStore(s, AfterRevokeFamily(s.store, sid, until, s.clock, s.clock + lag), s.clock + lag)
  }

  function Next(s: Sys, step: Step): Sys
  {
    match step
    case Tick(dt) => s.(clock := s.clock + dt)
    case Login(sid, aj, rj, a, r) => DoLogin(s, sid, aj, rj, a, r)
    case Start(jti) => DoStart(s, jti)
    case CheckJti(pid) => DoCheckJti(s, pid)
    case CheckFamily(pid) => DoCheckFamily(s, pid)
    case Prepare(pid) => DoPrepare(s, pid)
    case Rotate(pid, lag) => DoRotate(s, pid, lag)
    case Issue(pid, aj, rj, a, r) => DoIssue(s, pid, aj, rj, a, r)
    case Abort(pid) => Drop(s, pid)
    case LogoutToken(jti, lag) => DoLogoutToken(s, jti, lag)
    case LogoutFamily(sid, until, lag) => DoLogoutFamily(s, sid, until, lag)
  }

  function Run(s: Sys, steps: seq<Step>): Sys
    decreases |steps|
  {
    if steps == [] then s else Run(Next(s, steps[0]), steps[1..])
  }

  // ---- the invariant ----

  /** Tokens carry their session's fixed expiry and never outlive it. */
  predicate TokensOk(s: Sys)
  {
    forall j :: j in s.issued ==>
      var t := s.issued[j];
      t.jti == j && t.sid in s.sessions && t.sessionExp == s.sessions[t.sid] && t.exp <= t.sessionExp
  }

  predicate ProcsOk(s: Sys)
  {
    && (forall p :: p in s.procs ==>
          var t := s.procs[p].tok;
          p < s.started && t.kind == Refresh && t.jti in s.issued && s.issued[t.jti] == t)
    && (forall p :: p in s.procs && s.procs[p].Rotated? ==> s.procs[p].tok.jti in s.rotated)
  }

  /** The store holds tokens under their own expiry, and a rotated token until then. */
  predicate StoreOk(s: Sys)
  {
    && (forall j :: j in s.store.revoked ==> j in s.issued && s.store.revoked[j] == s.issued[j].exp * SECOND)
    && (forall j :: j in s.rotated ==>
          j in s.issued && (j in s.store.revoked || s.issued[j].exp * SECOND <= s.clock))
  }

  predicate Unspent(s: Sys, j: Id)
  {
    j in s.issued && s.issued[j].kind == Refresh && j !in s.rotated
  }

  predicate Minting(s: Sys, p: nat)
  {
    p in s.procs && s.procs[p].Rotated?
  }

  /** Every unspent token, and every refresh between spending and issuing, is its
      session's only holder. */
  predicate OneHolder(s: Sys)
  {
    && (forall j :: j in s.issued && Unspent(s, j) ==>
          s.issued[j].sid in s.holder && s.holder[s.issued[j].sid] == Token(j))
    && (forall p :: p in s.procs && Minting(s, p) ==>
          s.procs[p].tok.sid in s.holder && s.holder[s.procs[p].tok.sid] == Minter(p))
  }

  predicate ExchangesOk(s: Sys)
  {
    && (forall i :: 0 <= i < |s.exchanged| ==> s.exchanged[i].tok.jti in s.rotated)
    && (forall i, j :: 0 <= i < j < |s.exchanged| ==> s.exchanged[i].tok.jti != s.exchanged[j].tok.jti)
    && (forall i, p :: 0 <= i < |s.exchanged| && p in s.procs && s.procs[p].Rotated? ==>
          s.exchanged[i].tok.jti != s.procs[p].tok.jti)
  }

  predicate Inv(s: Sys)
  {
    TokensOk(s) && ProcsOk(s) && StoreOk(s) && OneHolder(s) && ExchangesOk(s)
  }

  lemma LoginKeepsTokens(s: Sys, sid: Id, aj: Id, rj: Id, accessSec: int, refreshSec: int)
    requires Inv(s)
    ensures TokensOk(DoLogin(s, sid, aj, rj, accessSec, refreshSec))
  {
  }

  lemma LoginKeepsStore(s: Sys, sid: Id, aj: Id, rj: Id, accessSec: int, refreshSec: int)
    requires Inv(s)
    ensures var s' := DoLogin(s, sid, aj, rj, accessSec, refreshSec); ProcsOk(s') && StoreOk(s')
  {
  }

  lemma LoginKeepsHolder(s: Sys, sid: Id, aj: Id, rj: Id, accessSec: int, refreshSec: int)
    requires Inv(s)
    ensures var s' := DoLogin(s, sid, aj, rj, accessSec, refreshSec);
            OneHolder(s') && ExchangesOk(s')
  {
  }

  lemma LoginKeepsInv(s: Sys, sid: Id, aj: Id, rj: Id, accessSec: int, refreshSec: int)
    requires Inv(s)
    ensures Inv(DoLogin(s, sid, aj, rj, accessSec, refreshSec))
  {
    LoginKeepsTokens(s, sid, aj, rj, accessSec, refreshSec);
    LoginKeepsStore(s, sid, aj, rj, accessSec, refreshSec);
    LoginKeepsHolder(s, sid, aj, rj, accessSec, refreshSec);
  }

  /** A store that may replace the current one by `clock`: own expiries only, and
      nothing forgotten that is still in force. */
  predicate StoreFits(s: Sys, st: Store, clock: Instant)
  {
    && (forall j :: j in st.revoked ==> j in s.issued && st.revoked[j] == s.issued[j].exp * SECOND)
    && (forall j :: j in s.store.revoked && s.store.revoked[j] > clock ==> j in st.revoked)
  }

  lemma PurgeFits(s: Sys, clock: Instant)
    requires StoreOk(s) && s.clock <= clock
    ensures StoreFits(s, Purge(s.store, s.clock), clock)
  {
  }

  lemma AddFits(s: Sys, st: Store, jti: Id, clock: Instant)
    requires StoreFits(s, st, clock) && jti in s.issued
    ensures StoreFits(s, st.(revoked := st.revoked[jti := s.issued[jti].exp * SECOND]), clock)
  {
  }

  lemma StoreStepKeepsInv(s: Sys, st: Store, clock: Instant)
    requires Inv(s) && s.clock <= clock && StoreFits(s, st, clock)
    ensures Inv(WithStore(s, st, clock))
  {
  }

  lemma MoveKeepsInv(s: Sys, pid: nat, to: Phase)
    requires Inv(s) && pid in s.procs && !s.procs[pid].Rotated? && !to.Rotated? && to.tok == s.procs[pid].tok
    ensures Inv(Move(s, pid, to))
  {
  }

  lemma DropKeepsInv(s: Sys, pid: nat)
    requires Inv(s)
    ensures Inv(Drop(s, pid))
  {
  }

  /** `revoke_once` succeeds only on a token that was never rotated before. */
  lemma RotatesOnce(s: Sys, pid: nat, lag: nat)
    requires Inv(s) && pid in s.procs && CanSpend(s, s.procs[pid].tok, lag)
    ensures s.procs[pid].tok.jti !in s.rotated
    ensures Unspent(s, s.procs[pid].tok.jti)
  {
  }

  lemma TrySpendKeepsInv(s: Sys, tok: Claims, lag: nat)
    requires Inv(s) && tok.jti in s.issued && s.issued[tok.jti] == tok
    ensures Inv(TrySpend(s, tok, lag))
  {
    PurgeFits(s, s.clock + lag);
    AddFits(s, Purge(s.store, s.clock), tok.jti, s.clock + lag);
    StoreStepKeepsInv(s, AfterRevokeOnce(s.store, tok.jti, tok.exp * SECOND, s.clock, s.clock + lag), s.clock + lag);
  }

  lemma RotateKeepsInv(s: Sys, pid: nat, lag: nat)
    requires Inv(s)
    ensures Inv(DoRotate(s, pid, lag))
  {
    if pid in s.procs && s.procs[pid].Prepared? {
      var tok := s.procs[pid].tok;
      var s' := TrySpend(s, tok, lag);
      TrySpendKeepsInv(s, tok, lag);
      if CanSpend(s, tok, lag) {
        RotatesOnce(s, pid, lag);
        SpendKeepsInv(s', pid);
        assert DoRotate(s, pid, lag) == Spend(s', pid);
      } else {
        DropKeepsInv(s', pid);
        assert DoRotate(s, pid, lag) == Drop(s', pid);
      }
    }
  }

  lemma SpendKeepsInv(s: Sys, pid: nat)
    requires Inv(s) && pid in s.procs && s.procs[pid].Prepared?
    requires s.procs[pid].tok.jti !in s.rotated && s.procs[pid].tok.jti in s.store.revoked
    ensures Inv(Spend(s, pid))
  {
    var tok := s.procs[pid].tok;
    assert Unspent(s, tok.jti) && s.issued[tok.jti].sid == tok.sid;
  }

  lemma IssueKeepsTokens(s: Sys, pid: nat, aj: Id, rj: Id, accessSec: int, refreshSec: int)
    requires Inv(s)
    ensures var s' := DoIssue(s, pid, aj, rj, accessSec, refreshSec);
            TokensOk(s') && ProcsOk(s') && StoreOk(s')
  {
  }

  lemma IssueKeepsHolder(s: Sys, pid: nat, aj: Id, rj: Id, accessSec: int, refreshSec: int)
    requires Inv(s)
    ensures var s' := DoIssue(s, pid, aj, rj, accessSec, refreshSec);
            OneHolder(s') && ExchangesOk(s')
  {
    if pid in s.procs && s.procs[pid].Rotated? && FreshPair(s, aj, rj) {
      assert Minting(s, pid);
    }
  }

  lemma IssueKeepsInv(s: Sys, pid: nat, aj: Id, rj: Id, accessSec: int, refreshSec: int)
    requires Inv(s)
    ensures Inv(DoIssue(s, pid, aj, rj, accessSec, refreshSec))
  {
    IssueKeepsTokens(s, pid, aj, rj, accessSec, refreshSec);
    IssueKeepsHolder(s, pid, aj, rj, accessSec, refreshSec);
  }

  lemma StartKeepsInv(s: Sys, jti: Id)
    requires Inv(s)
    ensures Inv(DoStart(s, jti))
  {
  }

  lemma CheckKeepsInv(s: Sys, pid: nat, to: Phase)
    requires Inv(s) && pid in s.procs && !s.procs[pid].Rotated? && !to.Rotated? && to.tok == s.procs[pid].tok
    ensures Inv(Drop(s.(store := Purge(s.store, s.clock)), pid))
    ensures Inv(Move(s.(store := Purge(s.store, s.clock)), pid, to))
  {
    PurgeFits(s, s.clock);
    StoreStepKeepsInv(s, Purge(s.store, s.clock), s.clock);
    var s' := s.(store := Purge(s.store, s.clock));
    DropKeepsInv(s', pid);
    MoveKeepsInv(s', pid, to);
  }

  lemma PrepareKeepsInv(s: Sys, pid: nat)
    requires Inv(s)
    ensures Inv(DoPrepare(s, pid))
  {
    DropKeepsInv(s, pid);
    if pid in s.procs && s.procs[pid].FamilyChecked? {
      MoveKeepsInv(s, pid, Prepared(s.procs[pid].tok, s.clock));
    }
  }

  lemma LogoutTokenKeepsInv(s: Sys, jti: Id, lag: nat)
    requires Inv(s)
    ensures Inv(DoLogoutToken(s, jti, lag))
  {
    if jti in s.issued {
      var st := AfterRevoke(s.store, jti, s.issued[jti].exp * SECOND, s.clock, s.clock + lag);
      PurgeFits(s, s.clock + lag);
      AddFits(s, Purge(s.store, s.clock), jti, s.clock + lag);
      StoreStepKeepsInv(s, st, s.clock + lag);
      assert DoLogoutToken(s, jti, lag) == WithStore(s, st, s.clock + lag);
    }
  }

  lemma LogoutFamilyKeepsInv(s: Sys, sid: Id, until: Instant, lag: nat)
    requires Inv(s)
    ensures Inv(DoLogoutFamily(s, sid, until, lag))
  {
    PurgeFits(s, s.clock + lag);
    StoreStepKeepsInv(s, AfterRevokeFamily(s.store, sid, until, s.clock, s.clock + lag), s.clock + lag);
  }

  lemma RefreshStepKeepsInv(s: Sys, step: Step)
    requires Inv(s)
    requires step.CheckJti? || step.CheckFamily? || step.Prepare? || step.Rotate? || step.Issue?
    ensures Inv(Next(s, step))
  {
    match step
    case CheckJti(pid) =>
      if pid in s.procs && s.procs[pid].Decoded? { CheckKeepsInv(s, pid, JtiChecked(s.procs[pid].tok)); }
    case CheckFamily(pid) =>
      if pid in s.procs && s.procs[pid].JtiChecked? { CheckKeepsInv(s, pid, FamilyChecked(s.procs[pid].tok)); }
    case Prepare(pid) => PrepareKeepsInv(s, pid);
    case Rotate(pid, lag) => RotateKeepsInv(s, pid, lag);
    case Issue(pid, aj, rj, a, r) => IssueKeepsInv(s, pid, aj, rj, a, r);
  }

  lemma TickKeepsInv(s: Sys, elapsed: nat)
    requires Inv(s)
    ensures Inv(s.(clock := s.clock + elapsed))
  {
    StoreStepKeepsInv(s, s.store, s.clock + elapsed);
  }

  lemma NextKeepsInv(s: Sys, step: Step)
    requires Inv(s)
    ensures Inv(Next(s, step))
  {
    hide Inv;
    match step
    case Tick(dt) => TickKeepsInv(s, dt);
    case Login(sid, aj, rj, a, r) => LoginKeepsInv(s, sid, aj, rj, a, r);
    case Start(jti) => StartKeepsInv(s, jti);
    case Abort(pid) => DropKeepsInv(s, pid);
    case LogoutToken(jti, lag) => LogoutTokenKeepsInv(s, jti, lag);
    case LogoutFamily(sid, until, lag) => LogoutFamilyKeepsInv(s, sid, until, lag);
    case _ => RefreshStepKeepsInv(s, step);
  }

  lemma {:induction false} RunKeepsInv(s: Sys, steps: seq<Step>)
    requires Inv(s)
    ensures Inv(Run(s, steps))
    decreases |steps|
  {
    if steps != [] {
      NextKeepsInv(s, steps[0]);
      RunKeepsInv(Next(s, steps[0]), steps[1..]);
    }
  }

  // ---- what every run keeps ----

  /** Each refresh token is exchanged for new tokens at most once, in every run. */
  lemma ExchangedAtMostOnce(steps: seq<Step>, i: nat, j: nat)
    requires i < j < |Run(INIT, steps).exchanged|
    ensures Run(INIT, steps).exchanged[i].tok.jti != Run(INIT, steps).exchanged[j].tok.jti
  {
    RunKeepsInv(INIT, steps);
  }

  /** A refresh token that would still pass the expiry and revocation checks. */
  predicate Live(s: Sys, j: Id)
  {
    && j in s.issued && s.issued[j].kind == Refresh
    && s.issued[j].exp * SECOND > s.clock
    && !HoldsToken(s.store, j, s.clock)
  }

  /** Each session has at most one live refresh token, in every run. */
  lemma OneLiveTokenPerSession(steps: seq<Step>, i: Id, j: Id)
    requires Live(Run(INIT, steps), i) && Live(Run(INIT, steps), j)
    requires Run(INIT, steps).issued[i].sid == Run(INIT, steps).issued[j].sid
    ensures i == j
  {
    RunKeepsInv(INIT, steps);
    var s := Run(INIT, steps);
    assert Unspent(s, i) && Unspent(s, j);
  }

  /** Along every chain of refreshes the session expiry stays what login fixed, and no
      access or refresh token outlives it. */
  lemma SessionExpiryIsFixed(steps: seq<Step>, i: Id, j: Id)
    requires i in Run(INIT, steps).issued && j in Run(INIT, steps).issued
    ensures var s := Run(INIT, steps);
            && s.issued[i].exp <= s.issued[i].sessionExp
            && (s.issued[i].sid == s.issued[j].sid ==> s.issued[i].sessionExp == s.issued[j].sessionExp)
  {
    RunKeepsInv(INIT, steps);
  }

  // ---- revoking a whole session ----

  /** The session is revoked until its own end, or that end has passed. */
  predicate Blocked(s: Sys, sid: Id, end: int)
  {
    (sid in s.store.families && s.store.families[sid] >= end * SECOND) || s.clock >= end * SECOND
  }

  /** A refresh that can still return tokens: it has spent its token, or its token is live
      and it is past the checks that could still refuse it. */
  predicate CanFinish(s: Sys, pid: nat)
  {
    && pid in s.procs
    && match s.procs[pid]
       case Rotated(_, _) => true
       case Prepared(tok, _) => Live(s, tok.jti)
       case FamilyChecked(tok) => Live(s, tok.jti) && tok.sessionExp * SECOND > s.clock
       case _ => false
  }

  /** No refresh of the session but those in `ahead` can return tokens. */
  predicate HeldBack(s: Sys, sid: Id, end: int, ahead: set<nat>)
  {
    forall p :: p in s.procs && p !in ahead && s.procs[p].tok.sid == sid ==>
      s.procs[p].tok.sessionExp == end && !CanFinish(s, p)
  }

  predicate Stopped(s: Sys, sid: Id, end: int, ahead: set<nat>, done: nat)
  {
    && sid in s.sessions && s.sessions[sid] == end
    && Blocked(s, sid, end)
    && HeldBack(s, sid, end, ahead)
    && (forall i :: done <= i < |s.exchanged| && s.exchanged[i].tok.sid == sid ==> s.exchanged[i].pid in ahead)
  }

  /** Tokens stay as issued, and a revocation still in force stays in the store. */
  predicate Keeps(s: Sys, s': Sys)
  {
    && s.clock <= s'.clock
    && (forall j :: j in s.issued ==> j in s'.issued && s'.issued[j] == s.issued[j])
    && (forall j :: j in s.store.revoked && s.store.revoked[j] > s'.clock ==> j in s'.store.revoked)
  }

  lemma StoreStepKeeps(s: Sys, step: Step)
    requires Inv(s) && (step.Rotate? || step.LogoutToken? || step.LogoutFamily? || step.CheckJti? || step.CheckFamily?)
    ensures Keeps(s, Next(s, step))
  {
  }

  lemma StepKeeps(s: Sys, step: Step)
    requires Inv(s)
    ensures Keeps(s, Next(s, step))
  {
    if step.Rotate? || step.LogoutToken? || step.LogoutFamily? || step.CheckJti? || step.CheckFamily? {
      StoreStepKeeps(s, step);
    }
  }

  /** A token that is not live never becomes live. */
  lemma DeadStaysDead(s: Sys, s': Sys, j: Id)
    requires StoreOk(s) && StoreOk(s') && Keeps(s, s') && j in s.issued && !Live(s, j)
    ensures !Live(s', j)
  {
  }

  /** A refresh that cannot finish cannot finish after it waits. */
  lemma WaitingCannotFinish(s: Sys, s': Sys, p: nat)
    requires Inv(s) && StoreOk(s') && Keeps(s, s')
    requires p in s.procs && p in s'.procs && s'.procs[p] == s.procs[p] && !CanFinish(s, p)
    ensures !CanFinish(s', p)
  {
    if !Live(s, s.procs[p].tok.jti) {
      DeadStaysDead(s, s', s.procs[p].tok.jti);
    }
  }

  /** Nor does its own next step help, once the session is blocked. */
  lemma CheckCannotFinish(s: Sys, step: Step, p: nat)
    requires Inv(s) && p in s.procs && !CanFinish(s, p)
    requires Blocked(s, s.procs[p].tok.sid, s.procs[p].tok.sessionExp)
    requires (step.CheckJti? || step.CheckFamily?) && step.pid == p
    ensures !CanFinish(Next(s, step), p)
  {
    StepKeeps(s, step);
    NextKeepsInv(s, step);
    if !Live(s, s.procs[p].tok.jti) {
      DeadStaysDead(s, Next(s, step), s.procs[p].tok.jti);
    }
  }

  lemma RotateCannotFinish(s: Sys, step: Step, p: nat)
    requires Inv(s) && p in s.procs && !CanFinish(s, p)
    requires (step.Prepare? || step.Rotate?) && step.pid == p
    ensures !CanFinish(Next(s, step), p)
  {
  }

  lemma BlockedStays(s: Sys, step: Step, sid: Id, end: int)
    requires Inv(s) && Blocked(s, sid, end)
    ensures Blocked(Next(s, step), sid, end)
  {
  }

  predicate Moves(step: Step, p: nat)
  {
    (step.CheckJti? || step.CheckFamily? || step.Prepare? || step.Rotate?) && step.pid == p
  }

  /** A step leaves a refresh alone unless it is that refresh's own, or ends it. */
  lemma OthersWait(s: Sys, step: Step, p: nat)
    requires p in s.procs && p in Next(s, step).procs && p < s.started && !Moves(step, p)
    ensures Next(s, step).procs[p] == s.procs[p]
  {
    hide AfterRevokeOnce, AfterRevoke, AfterRevokeFamily, CanRevokeOnce, HoldsToken, HoldsFamily, Purge;
  }

  lemma MovesKeepToken(s: Sys, step: Step, p: nat)
    requires p in s.procs && p in Next(s, step).procs && Moves(step, p)
    ensures Next(s, step).procs[p].tok == s.procs[p].tok
  {
  }

  lemma NewcomerHeldBack(s: Sys, step: Step, p: nat)
    requires Inv(s) && p !in s.procs && p in Next(s, step).procs
    ensures var tok := Next(s, step).procs[p].tok;
            !CanFinish(Next(s, step), p) && tok.sid in s.sessions && tok.sessionExp == s.sessions[tok.sid]
  {
  }

  lemma NextHoldsBack(s: Sys, step: Step, s': Sys, sid: Id, end: int, ahead: set<nat>, p: nat)
    requires Inv(s) && Blocked(s, sid, end) && HeldBack(s, sid, end, ahead)
    requires s' == Next(s, step) && Inv(s') && Keeps(s, s')
    requires p in s.procs && p in s'.procs && p !in ahead && s'.procs[p].tok.sid == sid
    ensures s'.procs[p].tok.sessionExp == end && !CanFinish(s', p)
  {
    if Moves(step, p) {
      MovesKeepToken(s, step, p);
      if step.CheckJti? || step.CheckFamily? {
        CheckCannotFinish(s, step, p);
      } else {
        RotateCannotFinish(s, step, p);
      }
    } else {
      OthersWait(s, step, p);
      WaitingCannotFinish(s, s', p);
    }
  }

  lemma ExchangeIsRotated(s: Sys, step: Step)
    ensures var s' := Next(s, step);
            s'.exchanged == s.exchanged
            || (&& step.Issue? && CanFinish(s, step.pid)
                && s'.exchanged == s.exchanged + [Exchange(step.pid, s.procs[step.pid].tok)])
    ensures forall id :: id in s.sessions ==>
              id in Next(s, step).sessions && Next(s, step).sessions[id] == s.sessions[id]
  {
  }

  lemma NextKeepsStopped(s: Sys, step: Step, sid: Id, end: int, ahead: set<nat>, done: nat)
    requires Inv(s) && Stopped(s, sid, end, ahead, done) && done <= |s.exchanged|
    ensures Stopped(Next(s, step), sid, end, ahead, done) && done <= |Next(s, step).exchanged|
  {
    hide Inv, Keeps;
    var s' := Next(s, step);
    StepKeeps(s, step);
    NextKeepsInv(s, step);
    BlockedStays(s, step, sid, end);
    assert HeldBack(s', sid, end, ahead) by {
      forall p | p in s'.procs && p !in ahead && s'.procs[p].tok.sid == sid
        ensures s'.procs[p].tok.sessionExp == end && !CanFinish(s', p)
      {
        if p in s.procs {
          NextHoldsBack(s, step, s', sid, end, ahead, p);
        } else {
          NewcomerHeldBack(s, step, p);
        }
      }
    }
    ExchangeIsRotated(s, step);
  }

  lemma {:induction false} RunKeepsStopped(s: Sys, steps: seq<Step>, sid: Id, end: int, ahead: set<nat>, done: nat)
    requires Inv(s) && Stopped(s, sid, end, ahead, done) && done <= |s.exchanged|
    ensures Stopped(Run(s, steps), sid, end, ahead, done)
    decreases |steps|
  {
    if steps != [] {
      NextKeepsInv(s, steps[0]);
      NextKeepsStopped(s, steps[0], sid, end, ahead, done);
      RunKeepsStopped(Next(s, steps[0]), steps[1..], sid, end, ahead, done);
    }
  }

  /** Once a session is revoked until at least its own end, the only refreshes of it that
      ever return tokens again are those that could still finish at that moment; in
      particular they had passed both revocation checks. */
  lemma RevokedSessionStaysRevoked(before: seq<Step>, sid: Id, until: Instant, lag: nat, later: seq<Step>, i: nat)
    requires sid in Run(INIT, before).sessions && until >= Run(INIT, before).sessions[sid] * SECOND
    requires var s := Run(INIT, before);
             var s' := Run(Next(s, LogoutFamily(sid, until, lag)), later);
             |s.exchanged| <= i < |s'.exchanged| && s'.exchanged[i].tok.sid == sid
    ensures var s := Run(INIT, before);
            var s1 := Next(s, LogoutFamily(sid, until, lag));
            var pid := Run(s1, later).exchanged[i].pid;
            CanFinish(s1, pid) && pid in s.procs && PastChecks(s.procs[pid])
  {
    hide Run, Inv, Next;
    RunKeepsInv(INIT, before);
    var s := Run(INIT, before);
    var s1 := Next(s, LogoutFamily(sid, until, lag));
    NextKeepsInv(s, LogoutFamily(sid, until, lag));
    var ahead := set p | p in s1.procs && CanFinish(s1, p);
    StoppedByRevocation(s, sid, until, lag, ahead);
    RunKeepsStopped(s1, later, sid, s.sessions[sid], ahead, |s.exchanged|);
  }

  lemma StoppedByRevocation(s: Sys, sid: Id, until: Instant, lag: nat, ahead: set<nat>)
    requires Inv(s) && sid in s.sessions && until >= s.sessions[sid] * SECOND
    requires var s1 := Next(s, LogoutFamily(sid, until, lag)); ahead == set p | p in s1.procs && CanFinish(s1, p)
    ensures var s1 := Next(s, LogoutFamily(sid, until, lag));
            && s1.procs == s.procs && s1.exchanged == s.exchanged
            && Stopped(s1, sid, s.sessions[sid], ahead, |s.exchanged|)
  {
  }

  // ---- what a refresh achieves ----

  /** The checks of one refresh with nothing in between. */
  function CheckedAlone(s: Sys, jti: Id): Sys
  {
    DoCheckFamily(DoCheckJti(DoStart(s, jti), s.started), s.started)
  }

  /** The rest of it: dating, rotating and issuing. */
  function IssuedAlone(s: Sys, pid: nat, aj: Id, rj: Id, accessSec: int, refreshSec: int): Sys
  {
    DoIssue(DoRotate(DoPrepare(s, pid), pid, 0), pid, aj, rj, accessSec, refreshSec)
  }

  /** Its first half, up to the token's own revocation check. */
  lemma JtiCheckedAlone(s: Sys, jti: Id)
    requires Inv(s) && jti in s.issued && s.issued[jti].kind == Refresh
    ensures var s' := DoCheckJti(DoStart(s, jti), s.started);
            && s'.clock == s.clock && s'.issued == s.issued && s'.exchanged == s.exchanged
            && (s'.store == s.store || s'.store == Purge(s.store, s.clock))
            && (Live(s, jti) <==> s.started in s'.procs)
            && (s.started in s'.procs ==> s'.procs[s.started] == JtiChecked(s.issued[jti]))
  {
  }

  lemma CheckedAloneOutcome(s: Sys, jti: Id)
    requires Inv(s) && jti in s.issued && s.issued[jti].kind == Refresh
    ensures var s' := CheckedAlone(s, jti);
            && s'.clock == s.clock && s'.issued == s.issued && s'.exchanged == s.exchanged
            && s'.store.revoked.Keys <= s.store.revoked.Keys
            && (Live(s, jti) && !HoldsFamily(s.store, s.issued[jti].sid, s.clock) <==> s.started in s'.procs)
            && (s.started in s'.procs ==>
                  s'.procs[s.started] == FamilyChecked(s.issued[jti]) && jti !in Purge(s'.store, s'.clock).revoked)
  {
    JtiCheckedAlone(s, jti);
  }

  lemma IssuedAloneOutcome(s: Sys, pid: nat, aj: Id, rj: Id, accessSec: int, refreshSec: int)
    requires FreshPair(s, aj, rj)
    requires pid in s.procs ==>
      && s.procs[pid].FamilyChecked?
      && s.procs[pid].tok.exp * SECOND > s.clock
      && s.procs[pid].tok.jti in s.issued
      && s.procs[pid].tok.jti !in Purge(s.store, s.clock).revoked
    ensures var s' := IssuedAlone(s, pid, aj, rj, accessSec, refreshSec);
            if pid in s.procs && s.procs[pid].tok.sessionExp * SECOND > s.clock
            then s'.exchanged == s.exchanged + [Exchange(pid, s.procs[pid].tok)]
                 && rj in s'.issued && s'.issued[rj] == NewRefresh(s.procs[pid].tok, rj, s.clock, refreshSec)
            else s'.exchanged == s.exchanged
  {
    if pid in s.procs && s.procs[pid].tok.sessionExp * SECOND > s.clock {
      var tok := s.procs[pid].tok;
      var s1 := DoPrepare(s, pid);
      assert s1.procs[pid] == Prepared(tok, s.clock);
      var s2 := DoRotate(s1, pid, 0);
      assert s2.procs[pid] == Rotated(tok, s.clock);
      assert FreshPair(s2, aj, rj);
    }
  }

  /** Left alone, a refresh returns new tokens exactly when its token is live and its
      session is neither revoked nor over. */
  lemma RefreshSucceedsExactlyWhenLive(s: Sys, jti: Id, aj: Id, rj: Id, accessSec: int, refreshSec: int)
    requires Inv(s) && jti in s.issued && s.issued[jti].kind == Refresh && FreshPair(s, aj, rj)
    ensures var s' := IssuedAlone(CheckedAlone(s, jti), s.started, aj, rj, accessSec, refreshSec);
            var t := s.issued[jti];
            if Live(s, jti) && !HoldsFamily(s.store, t.sid, s.clock) && t.sessionExp * SECOND > s.clock
            then s'.exchanged == s.exchanged + [Exchange(s.started, t)] && rj in s'.issued
                 && s'.issued[rj] == NewRefresh(t, rj, s.clock, refreshSec)
            else s'.exchanged == s.exchanged
  {
    CheckedAloneOutcome(s, jti);
    IssuedAloneOutcome(CheckedAlone(s, jti), s.started, aj, rj, accessSec, refreshSec);
  }

  /** A whole second is enough: what is rounded down to seconds still lies ahead. */
  lemma RoundedDownLiesAhead(now: Instant, end: Instant)
    requires end >= now + SECOND
    ensures Seconds(end) * SECOND > now
  {
  }

  /** A new session can be continued, and so can one that was refreshed with at least a second
      left: the new token is live. */
  lemma LoginIsLive(s: Sys, sid: Id, aj: Id, rj: Id, accessSec: int, refreshSec: int)
    requires sid !in s.sessions && FreshPair(s, aj, rj) && refreshSec >= 1
    ensures Live(DoLogin(s, sid, aj, rj, accessSec, refreshSec), rj)
  {
    RoundedDownLiesAhead(s.clock, s.clock + refreshSec * SECOND);
  }

  lemma RefreshIsLive(s: Sys, pid: nat, aj: Id, rj: Id, accessSec: int, refreshSec: int)
    requires Inv(s) && pid in s.procs && s.procs[pid].Rotated? && s.procs[pid].now == s.clock && FreshPair(s, aj, rj)
    requires refreshSec >= 1 && s.procs[pid].tok.sessionExp * SECOND >= s.clock + SECOND
    ensures Live(DoIssue(s, pid, aj, rj, accessSec, refreshSec), rj)
  {
    var tok := s.procs[pid].tok;
    RoundedDownLiesAhead(s.clock, Min(s.clock + refreshSec * SECOND, tok.sessionExp * SECOND));
  }

  /** Left alone, a refresh that succeeds with a second of session left continues it. */
  lemma ContinuedSessionIsLive(s: Sys, jti: Id, aj: Id, rj: Id, accessSec: int, refreshSec: int)
    requires Inv(s) && Live(s, jti) && FreshPair(s, aj, rj) && refreshSec >= 1
    requires !HoldsFamily(s.store, s.issued[jti].sid, s.clock)
    requires s.issued[jti].sessionExp * SECOND >= s.clock + SECOND
    ensures Live(IssuedAlone(CheckedAlone(s, jti), s.started, aj, rj, accessSec, refreshSec), rj)
  {
    hide Inv, CheckedAlone, FreshPair;
    CheckedAloneOutcome(s, jti);
    CheckedAloneKeepsInv(s, jti);
    var s1 := CheckedAlone(s, jti);
    CheckedAloneKeepsFresh(s, jti, aj, rj);
    CarriesOwnId(s, jti);
    PreparedForIssue(s1, s.started, aj, rj);
    RefreshIsLive(DoRotate(DoPrepare(s1, s.started), s.started, 0), s.started, aj, rj, accessSec, refreshSec);
  }

  lemma CarriesOwnId(s: Sys, jti: Id)
    requires Inv(s) && jti in s.issued
    ensures s.issued[jti].jti == jti
  {
  }

  lemma CheckedAloneKeepsInv(s: Sys, jti: Id)
    requires Inv(s)
    ensures Inv(CheckedAlone(s, jti))
  {
    hide Inv;
    StartKeepsInv(s, jti);
    var s1 := DoStart(s, jti);
    NextKeepsInv(s1, CheckJti(s.started));
    NextKeepsInv(DoCheckJti(s1, s.started), CheckFamily(s.started));
  }

  lemma CheckedAloneKeepsFresh(s: Sys, jti: Id, aj: Id, rj: Id)
    requires FreshPair(s, aj, rj) && Inv(s) && jti in s.issued && s.issued[jti].kind == Refresh
    ensures FreshPair(CheckedAlone(s, jti), aj, rj)
  {
    hide Inv, CheckedAlone;
    CheckedAloneOutcome(s, jti);
  }

  lemma PreparedForIssue(s: Sys, pid: nat, aj: Id, rj: Id)
    requires Inv(s) && pid in s.procs && s.procs[pid].FamilyChecked? && FreshPair(s, aj, rj)
    requires Live(s, s.procs[pid].tok.jti) && s.procs[pid].tok.sessionExp * SECOND > s.clock
    ensures var s' := DoRotate(DoPrepare(s, pid), pid, 0);
            && Inv(s') && pid in s'.procs && s'.procs[pid] == Rotated(s.procs[pid].tok, s.clock)
            && s'.clock == s.clock && FreshPair(s', aj, rj)
  {
    PrepareKeepsInv(s, pid);
    var s1 := DoPrepare(s, pid);
    RotateKeepsInv(s1, pid, 0);
    SpendsLive(s1, pid, aj, rj);
  }

  /** The steps a refresh still has before it. */
  function Remaining(p: Phase, pid: nat, aj: Id, rj: Id, accessSec: int, refreshSec: int): seq<Step>
  {
    var issue := Issue(pid, aj, rj, accessSec, refreshSec);
    match p
    case FamilyChecked(_) => [Prepare(pid)] + ([Rotate(pid, 0)] + [issue])
    case Prepared(_, _) => [Rotate(pid, 0)] + [issue]
    case _ => [issue]
  }

  lemma RunCons(s: Sys, step: Step, rest: seq<Step>)
    ensures Run(s, [step] + rest) == Run(Next(s, step), rest)
  {
    assert ([step] + rest)[1..] == rest;
  }

  lemma RotatedFinishes(s: Sys, pid: nat, issue: Step)
    requires pid in s.procs && s.procs[pid].Rotated?
    requires issue.Issue? && issue.pid == pid && FreshPair(s, issue.accessJti, issue.refreshJti)
    ensures Run(s, [issue]).exchanged == s.exchanged + [Exchange(pid, s.procs[pid].tok)]
  {
    RunCons(s, issue, []);
    assert [issue] + [] == [issue];
  }

  /** What `ProcsOk` says of one refresh. */
  predicate OwnToken(s: Sys, pid: nat)
  {
    pid in s.procs && s.procs[pid].tok.jti in s.issued && s.issued[s.procs[pid].tok.jti] == s.procs[pid].tok
  }

  lemma OwnsToken(s: Sys, pid: nat)
    requires Inv(s) && pid in s.procs
    ensures OwnToken(s, pid)
  {
  }

  lemma SpendsLive(s: Sys, pid: nat, aj: Id, rj: Id)
    requires OwnToken(s, pid) && s.procs[pid].Prepared? && Live(s, s.procs[pid].tok.jti) && FreshPair(s, aj, rj)
    ensures var s' := DoRotate(s, pid, 0);
            pid in s'.procs && s'.procs[pid].Rotated? && s'.procs[pid].tok == s.procs[pid].tok
            && FreshPair(s', aj, rj) && s'.exchanged == s.exchanged
  {
    assert CanSpend(s, s.procs[pid].tok, 0);
  }

  lemma PreparedFinishes(s: Sys, s': Sys, pid: nat, tok: Claims, done: seq<Exchange>, issue: Step)
    requires pid in s'.procs && s'.procs[pid].Rotated? && s'.procs[pid].tok == tok && s'.exchanged == done
    requires issue.Issue? && issue.pid == pid && FreshPair(s', issue.accessJti, issue.refreshJti)
    requires s' == Next(s, Rotate(pid, 0))
    ensures Run(s, [Rotate(pid, 0)] + [issue]).exchanged == done + [Exchange(pid, tok)]
  {
    RunCons(s, Rotate(pid, 0), [issue]);
    RotatedFinishes(s', pid, issue);
  }

  lemma LiveFinishes(s: Sys, pid: nat, issue: Step)
    requires OwnToken(s, pid) && s.procs[pid].Prepared? && Live(s, s.procs[pid].tok.jti)
    requires issue.Issue? && issue.pid == pid && FreshPair(s, issue.accessJti, issue.refreshJti)
    ensures Run(s, [Rotate(pid, 0)] + [issue]).exchanged == s.exchanged + [Exchange(pid, s.procs[pid].tok)]
  {
    SpendsLive(s, pid, issue.accessJti, issue.refreshJti);
    PreparedFinishes(s, DoRotate(s, pid, 0), pid, s.procs[pid].tok, s.exchanged, issue);
  }

  /** The converse: each refresh that can still finish does return tokens if it is left
      alone, whatever was revoked before. So these are exactly the refreshes a session
      revocation does not stop. */
  lemma RevocationDoesNotStopCheckedRefresh(s: Sys, pid: nat, aj: Id, rj: Id, accessSec: int, refreshSec: int)
    requires Inv(s) && CanFinish(s, pid) && FreshPair(s, aj, rj)
    ensures Run(s, Remaining(s.procs[pid], pid, aj, rj, accessSec, refreshSec)).exchanged
            == s.exchanged + [Exchange(pid, s.procs[pid].tok)]
  {
    hide Run, Inv;
    OwnsToken(s, pid);
    var issue := Issue(pid, aj, rj, accessSec, refreshSec);
    match s.procs[pid]
    case FamilyChecked(tok) =>
      RunCons(s, Prepare(pid), [Rotate(pid, 0)] + [issue]);
      LiveFinishes(DoPrepare(s, pid), pid, issue);
    case Prepared(_, _) => LiveFinishes(s, pid, issue);
    case Rotated(_, _) => RotatedFinishes(s, pid, issue);
  }

  /** And a session revocation takes the ability from none of them: whatever the time
      between its two clock readings, only that time passes. */
  lemma RevocationLeavesFinishers(s: Sys, sid: Id, until: Instant, lag: nat, pid: nat)
    requires Inv(s)
    ensures CanFinish(DoLogoutFamily(s, sid, until, lag), pid) <==> CanFinish(s.(clock := s.clock + lag), pid)
    ensures until > s.clock + lag ==> HoldsFamily(DoLogoutFamily(s, sid, until, lag).store, sid, s.clock + lag)
  {
    var s', t := DoLogoutFamily(s, sid, until, lag), s.(clock := s.clock + lag);
    if pid in s.procs {
      var j := s.procs[pid].tok.jti;
      assert HoldsToken(s'.store, j, s'.clock) <==> HoldsToken(t.store, j, t.clock);
    }
  }
}
