/** Tool dispatch: the gate pipeline of the registry, one-shot approval grants and the
    revocable dispatch state, with any number of calls in flight. A call suspends at the
    rate limiter and in its handler; what happens between two suspensions is one step. */
module ToolDispatch {
  import opened Text

  /** Arguments, by their canonical JSON; some mappings have none. */
  datatype Arguments = NotMapping | Mapping(canonical: Option<string>)

  datatype Definition = Definition(requiresApproval: bool)

  /** A caller's request, with the answers of the schema and permission checks. */
  datatype Request = Request(
    tool: string, args: Arguments, runId: Option<string>, tenant: string, user: string,
    input: Validation, permitted: bool, grant: Option<nat>, dispatch: Option<nat>)

  /** What an approval grant was minted for. */
  datatype Terms = Terms(
    runId: string, tenant: string, user: string, tool: string, digest: string, expiresAt: int)

  datatype Consumption = Consumed | Refused | DigestFails

  /** `ToolApprovalGrant.consume`; the argument digest is taken only when all else fits. */
  function Answer(g: Terms, consumed: bool, clock: int, r: Request): Consumption
  {
    if consumed || clock >= g.expiresAt || r.runId != Some(g.runId) || r.tenant != g.tenant
       || r.user != g.user || r.tool != g.tool || r.args.NotMapping? then Refused
    else if r.args.canonical.None? then DigestFails
    else if r.args.canonical.value != g.digest then Refused
    else Consumed
  }

  class ToolApprovalGrant {
    const terms: Terms
    var consumed: bool

    constructor (t: Terms)
      ensures terms == t && !consumed
    {
      terms, consumed := t, false;
    }

    /** Succeeds at most once over the life of the grant. */
    method Consume(clock: int, r: Request) returns (c: Consumption)
      modifies this
      ensures c == Answer(terms, old(consumed), clock, r)
      ensures consumed <==> old(consumed) || c.Consumed?
      ensures old(consumed) ==> c == Refused
    {
      if consumed || clock >= terms.expiresAt || r.runId != Some(terms.runId) || r.tenant != terms.tenant
         || r.user != terms.user || r.tool != terms.tool || r.args.NotMapping? {
        return Refused;
      }
      if r.args.canonical.None? {
        return DigestFails;
      }
      if r.args.canonical.value != terms.digest {
        return Refused;
      }
      consumed := true;
      c := Consumed;
    }
  }

  // ---- the registry with calls in flight ----

  datatype Phase = Waiting | Running | Done

  /** What schema validation comes to: a model, one of the two errors that are caught, or
      any other exception, as a schema's own validator may raise. */
  datatype Validation = Accepted | Caught | Uncaught

  /** What the validated model dumps to. A root model may dump to something that is not a
      mapping. */
  datatype Dump = DumpRaises | NotDict | Dict

  /** What the tool's prompt projection does with the dump: there is none; it returns or
      raises an ordinary exception, and leaves the dump `usable` (its status can be looked up
      and its keys sorted) or not; or it raises something that is not an `Exception`. */
  datatype Projection = NoProjection | Projected(usable: bool) | ProjectionEscapes

  /** How a handler ends: the call itself raises, it times out, it is cancelled, it raises
      an ordinary exception or one that is not an `Exception`, or it returns. */
  datatype HandlerEnd =
    | CallRaises | TimedOut | Cancelled | Raised | Escaped
    | Returned(validation: Validation, dump: Dump, projection: Projection)

  /** How `execute` ends after the handler's start. */
  datatype CallEnd = ToolError | Reraised | Uncontrolled | Result

  /** Attempts to record the call, once its handler has returned. */
  function AttemptsOnReturn(v: Validation, d: Dump, p: Projection): nat
  {
    match v
    case Uncaught => 0
    case Caught => 1
    case Accepted =>
      if d == DumpRaises || p == ProjectionEscapes then 0
      else if d == NotDict || p == Projected(false) then 0
      else 1
  }

  function AttemptsAfter(h: HandlerEnd): nat
  {
    match h
    case CallRaises => 0
    case Escaped => 0
    case Returned(v, d, p) => AttemptsOnReturn(v, d, p)
    case _ => 1
  }

  /** The endings that are recorded: the handler stopped in a way the registry handles, or
      its output failed validation in a caught way, or it passed and dumped to a mapping that
      no projection spoilt. */
  predicate Recordable(h: HandlerEnd)
  {
    || h == TimedOut || h == Cancelled || h == Raised
    || (h.Returned? && (h.validation == Caught || Publishable(h)))
  }

  predicate Publishable(h: HandlerEnd)
  {
    && h.Returned? && h.validation == Accepted && h.dump == Dict
    && (h.projection == NoProjection || h.projection == Projected(true))
  }

  /** `execute` from the handler's start on, exception by exception. */
  method Conclude(h: HandlerEnd, recorder: bool) returns (attempts: nat, end: CallEnd)
    ensures attempts == if recorder then AttemptsAfter(h) else 0
    ensures recorder ==> (attempts == 1 <==> Recordable(h)) && attempts <= 1
    ensures end == Uncontrolled <==> !Recordable(h)
    ensures end == Result <==> Publishable(h)
    ensures end == Reraised <==> h == Cancelled
  {
    attempts := 0;
    if h == CallRaises || h == Escaped {
      return attempts, Uncontrolled;
    }
    if h == TimedOut || h == Cancelled || h == Raised {
      attempts := attempts + if recorder then 1 else 0;
      return attempts, if h == Cancelled then Reraised else ToolError;
    }
    match h.validation {
      case Uncaught => return attempts, Uncontrolled;
      case Caught =>
        attempts := attempts + if recorder then 1 else 0;
        return attempts, ToolError;
      case Accepted =>
    }
    if h.dump == DumpRaises || h.projection == ProjectionEscapes {
      return attempts, Uncontrolled;
    }
    if h.dump == NotDict || h.projection == Projected(false) {
      return attempts, Uncontrolled;
    }
    attempts := attempts + if recorder then 1 else 0;
    end := Result;
  }

  /** `rateOk`, `started`, `ending` and `records` record what this call did. */
  datatype Call = Call(
    req: Request, phase: Phase, rateOk: bool, started: bool, ending: Option<HandlerEnd>, records: nat)

  /** A minted grant and the call that consumed it. */
  datatype Minted = Minted(terms: Terms, takenBy: Option<nat>)

  datatype Sys = Sys(
    registry: map<string, Definition>, recorder: bool, clock: int,
    grants: map<nat, Minted>, revoked: set<nat>, calls: map<nat, Call>)

  function Init(registry: map<string, Definition>, recorder: bool): Sys
  {
    Sys(registry, recorder, 0, map[], {}, map[])
  }

  datatype Step =
    | Tick(elapsed: nat)
    | Mint(grant: nat, terms: Terms)
    | Revoke(dispatch: nat)
    | Enter(id: nat, req: Request)
    | RateDecided(id: nat, allowed: bool)
    | RateFails(id: nat)
    | HandlerEnds(id: nat, how: HandlerEnd)

  /** One attempt to persist the tool call, when a recorder is configured. */
  function Record(s: Sys, c: Call): Call { if s.recorder then c.(records := c.records + 1) else c }

  function Put(s: Sys, id: nat, c: Call): Sys { s.(calls := s.calls[id := c]) }

  predicate NeedsApproval(s: Sys, r: Request)
  {
    r.tool in s.registry && s.registry[r.tool].requiresApproval
  }

  /** What the approval gate answers; `Consumed` also when none is needed. */
  function ApprovalGate(s: Sys, r: Request): Consumption
  {
    if !NeedsApproval(s, r) then Consumed
    else if r.grant.None? || r.grant.value !in s.grants then Refused
    else
      var g := s.grants[r.grant.value];
      Answer(g.terms, g.takenBy.Some?, s.clock, r)
  }

  function Take(s: Sys, id: nat, r: Request): Sys
    requires NeedsApproval(s, r) && r.grant.Some? && r.grant.value in s.grants
  {
    s.(grants := s.grants[r.grant.value := s.grants[r.grant.value].(takenBy := Some(id))])
  }

  /** `execute` up to the rate limiter: a missing run id raises before anything is
      recorded, so do a failing digest and an uncaught validation error; every refused gate
      records; and a grant is spent before the schema and permission gates are asked. */
  function DoEnter(s: Sys, id: nat, r: Request): Sys
  {
    if id in s.calls then s
    else
      var entered := Call(r, Done, false, false, None, 0);
      var refused := Record(s, entered);
      if s.recorder && r.runId.None? then Put(s, id, entered)
      else if r.tool !in s.registry || r.args.NotMapping? then Put(s, id, refused)
      else
        match ApprovalGate(s, r)
        case Refused => Put(s, id, refused)
        case DigestFails => Put(s, id, entered)
        case Consumed =>
          var s' := if NeedsApproval(s, r) then Take(s, id, r) else s;
          if r.input == Uncaught then Put(s', id, entered)
          else if r.input == Caught || !r.permitted then Put(s', id, refused)
          else Put(s', id, entered.(phase := Waiting))
  }

  predicate GrantExpired(s: Sys, r: Request)
  {
    r.grant.Some? && r.grant.value in s.grants && s.clock >= s.grants[r.grant.value].terms.expiresAt
  }

  predicate DispatchRevoked(s: Sys, r: Request) { r.dispatch.Some? && r.dispatch.value in s.revoked }

  /** The limiter has answered: the last checks and the handler's start are one step. */
  function DoRate(s: Sys, id: nat, allowed: bool): Sys
  {
    if id !in s.calls || !s.calls[id].phase.Waiting? then s
    else
      var c := s.calls[id];
      if !allowed then Put(s, id, Record(s, c.(phase := Done)))
      else if DispatchRevoked(s, c.req) || GrantExpired(s, c.req) then Put(s, id, c.(phase := Done, rateOk := true))
      else Put(s, id, c.(phase := Running, rateOk := true, started := true))
  }

  function DoHandlerEnds(s: Sys, id: nat, how: HandlerEnd): Sys
  {
    if id !in s.calls || !s.calls[id].phase.Running? then s
    else
      var c := s.calls[id].(phase := Done, ending := Some(how));
      Put(s, id, c.(records := c.records + if s.recorder then AttemptsAfter(how) else 0))
  }

  function Next(s: Sys, step: Step): Sys
  {
    match step
    case Tick(dt) => s.(clock := s.clock + dt)
    case Mint(g, t) => if g in s.grants then s else s.(grants := s.grants[g := Minted(t, None)])
    case Revoke(d) => s.(revoked := s.revoked + {d})
    case Enter(id, r) => DoEnter(s, id, r)
    case RateDecided(id, allowed) => DoRate(s, id, allowed)
    case RateFails(id) =>
      if id in s.calls && s.calls[id].phase.Waiting? then Put(s, id, s.calls[id].(phase := Done)) else s
    case HandlerEnds(id, how) => DoHandlerEnds(s, id, how)
  }

  function Run(s: Sys, steps: seq<Step>): Sys
    decreases |steps|
  {
    if steps == [] then s else Run(Next(s, steps[0]), steps[1..])
  }

  // ---- the invariant ----

  /** The grant is for this run, tenant, user, tool and these very arguments. */
  predicate MintedFor(t: Terms, r: Request)
  {
    && t.tool == r.tool && r.runId == Some(t.runId) && t.tenant == r.tenant && t.user == r.user
    && r.args.Mapping? && r.args.canonical == Some(t.digest)
  }

  /** Registration, mapping, input and permission gates, and the grant spent by this
      very call when the tool needs approval. */
  predicate GatesPassed(s: Sys, id: nat, r: Request)
  {
    && (s.recorder ==> r.runId.Some?)
    && r.tool in s.registry && r.args.Mapping? && r.input == Accepted && r.permitted
    && (s.registry[r.tool].requiresApproval ==>
          && r.grant.Some? && r.grant.value in s.grants
          && s.grants[r.grant.value].takenBy == Some(id)
          && MintedFor(s.grants[r.grant.value].terms, r))
  }

  predicate CallOk(s: Sys, id: nat, c: Call)
  {
    && (c.phase.Waiting? || c.started ==> GatesPassed(s, id, c.req))
    && (c.started ==> c.rateOk)
    && (c.phase.Waiting? ==> !c.started)
    && (c.phase.Running? ==> c.started)
    && (!c.phase.Done? ==> c.records == 0)
    && c.records <= 1
    && (c.started && c.phase.Done? ==>
          c.ending.Some? && c.records == if s.recorder && Recordable(c.ending.value) then 1 else 0)
  }

  predicate Inv(s: Sys)
  {
    && (forall id :: id in s.calls ==> CallOk(s, id, s.calls[id]))
    && (forall g :: g in s.grants && s.grants[g].takenBy.Some? ==> s.grants[g].takenBy.value in s.calls)
  }

  lemma PutKeepsInv(s: Sys, id: nat, c: Call)
    requires Inv(s) && CallOk(s, id, c)
    ensures Inv(Put(s, id, c))
  {
  }

  /** Spending a grant nobody has spent disturbs no other call. */
  lemma TakeKeepsInv(s: Sys, id: nat, r: Request, c: Call)
    requires Inv(s) && id !in s.calls && NeedsApproval(s, r) && ApprovalGate(s, r).Consumed?
    requires CallOk(Take(s, id, r), id, c)
    ensures Inv(Put(Take(s, id, r), id, c))
  {
  }

  lemma EnterKeepsInv(s: Sys, id: nat, r: Request)
    requires Inv(s)
    ensures Inv(DoEnter(s, id, r))
  {
    if id !in s.calls {
      var c := DoEnter(s, id, r).calls[id];
      if r.tool in s.registry && !r.args.NotMapping? && !(s.recorder && r.runId.None?)
         && ApprovalGate(s, r).Consumed? && NeedsApproval(s, r) {
        TakeKeepsInv(s, id, r, c);
      } else {
        PutKeepsInv(s, id, c);
      }
    }
  }

  lemma NextKeepsInv(s: Sys, step: Step)
    requires Inv(s)
    ensures Inv(Next(s, step))
  {
    match step
    case Enter(id, r) => EnterKeepsInv(s, id, r);
    case RateDecided(id, allowed) => if id in s.calls { PutKeepsInv(s, id, DoRate(s, id, allowed).calls[id]); }
    case RateFails(id) => if id in s.calls { PutKeepsInv(s, id, Next(s, step).calls[id]); }
    case HandlerEnds(id, how) => if id in s.calls { PutKeepsInv(s, id, DoHandlerEnds(s, id, how).calls[id]); }
    case _ =>
  }

  lemma {:induction false} RunKeepsInv(s: Sys, steps: seq<Step>)
    requires Inv(s)
    ensures Inv(Run(s, steps))
    decreases |steps|
  {
    if steps != [] {
      NextKeepsInv(s, steps[0]);
      RunKeepsInv(Next(s, steps[0]), steps[1..]);
    }
  }

  // ---- what every run keeps ----

  /** A handler has started only in calls whose every gate passed in that same call. */
  lemma StartedBehindAllGates(reg: map<string, Definition>, rec: bool, steps: seq<Step>, id: nat)
    requires id in Run(Init(reg, rec), steps).calls && Run(Init(reg, rec), steps).calls[id].started
    ensures var s := Run(Init(reg, rec), steps);
            GatesPassed(s, id, s.calls[id].req) && s.calls[id].rateOk
  {
    RunKeepsInv(Init(reg, rec), steps);
  }

  /** Each grant backs at most one start of a tool that needs approval. */
  lemma GrantBacksOneStart(reg: map<string, Definition>, rec: bool, steps: seq<Step>, i: nat, j: nat)
    requires var s := Run(Init(reg, rec), steps);
             && i in s.calls && j in s.calls && s.calls[i].started && s.calls[j].started
             && NeedsApproval(s, s.calls[i].req) && NeedsApproval(s, s.calls[j].req)
             && s.calls[i].req.grant == s.calls[j].req.grant
    ensures i == j
  {
    RunKeepsInv(Init(reg, rec), steps);
    var s := Run(Init(reg, rec), steps);
    assert CallOk(s, i, s.calls[i]) && CallOk(s, j, s.calls[j]);
  }

  /** The request brings an unspent, unexpired grant minted for it. */
  predicate Backed(s: Sys, r: Request)
  {
    && r.grant.Some? && r.grant.value in s.grants && s.grants[r.grant.value].takenBy.None?
    && MintedFor(s.grants[r.grant.value].terms, r) && !GrantExpired(s, r)
  }

  lemma ApprovedExactlyWhenBacked(s: Sys, r: Request)
    requires r.args.Mapping?
    ensures ApprovalGate(s, r).Consumed? <==> !NeedsApproval(s, r) || Backed(s, r)
  {
  }

  /** What a call needs to get past the gates before the limiter. */
  predicate Enterable(s: Sys, r: Request)
  {
    && (s.recorder ==> r.runId.Some?)
    && r.tool in s.registry && r.args.Mapping?
    && (NeedsApproval(s, r) ==> Backed(s, r))
    && r.input == Accepted && r.permitted
  }

  lemma EntersExactlyWhenEnterable(s: Sys, id: nat, r: Request)
    requires id !in s.calls
    ensures var s' := DoEnter(s, id, r);
            && id in s'.calls && s'.calls[id].req == r && !s'.calls[id].started
            && (s'.calls[id].phase.Waiting? <==> Enterable(s, r))
            && s'.revoked == s.revoked && (GrantExpired(s', r) <==> GrantExpired(s, r))
  {
    if r.args.Mapping? {
      ApprovedExactlyWhenBacked(s, r);
    }
  }

  /** Left alone, with the limiter's consent, a call starts its handler exactly when all
      gates pass and neither its dispatch nor its grant has lapsed: no gate refuses more
      than it should. */
  lemma StartsExactlyWhenAdmissible(s: Sys, id: nat, r: Request)
    requires id !in s.calls
    ensures var s' := DoRate(DoEnter(s, id, r), id, true);
            && id in s'.calls
            && (s'.calls[id].started <==> Enterable(s, r) && !DispatchRevoked(s, r) && !GrantExpired(s, r))
  {
    EntersExactlyWhenEnterable(s, id, r);
  }

  /** A start happens in one step only, and in that step the dispatch is not revoked and
      the grant not expired. */
  lemma StartStep(s: Sys, step: Step, id: nat)
    requires !(id in s.calls && s.calls[id].started)
    requires id in Next(s, step).calls && Next(s, step).calls[id].started
    ensures step == RateDecided(id, true)
    ensures !DispatchRevoked(s, s.calls[id].req) && !GrantExpired(s, s.calls[id].req)
  {
  }

  /** Once a dispatch state is revoked, no handler under it starts any more. */
  lemma {:induction false} NoStartAfterRevoke(s: Sys, steps: seq<Step>, d: nat, id: nat)
    requires d in s.revoked && !(id in s.calls && s.calls[id].started)
    ensures var s' := Run(s, steps);
            id in s'.calls && s'.calls[id].req.dispatch == Some(d) ==> !s'.calls[id].started
    decreases |steps|
  {
    if steps != [] {
      var s1 := Next(s, steps[0]);
      if id in s1.calls && s1.calls[id].started {
        StartStep(s, steps[0], id);
        StartedStays(s1, steps[1..], id);
      } else {
        NoStartAfterRevoke(s1, steps[1..], d, id);
      }
    }
  }

  lemma StartedStaysNow(s: Sys, step: Step, id: nat)
    requires id in s.calls && s.calls[id].started
    ensures var s' := Next(s, step);
            id in s'.calls && s'.calls[id].req == s.calls[id].req && s'.calls[id].started
  {
  }

  lemma {:induction false} StartedStays(s: Sys, steps: seq<Step>, id: nat)
    requires id in s.calls && s.calls[id].started
    ensures id in Run(s, steps).calls && Run(s, steps).calls[id].req == s.calls[id].req
    decreases |steps|
  {
    if steps != [] {
      StartedStaysNow(s, steps[0], id);
      StartedStays(Next(s, steps[0]), steps[1..], id);
    }
  }

  /** A call never records twice. With a recorder, a call whose handler started has
      recorded exactly once when it is over if and only if its ending is recordable. */
  lemma OneRecordPerStart(reg: map<string, Definition>, rec: bool, steps: seq<Step>, id: nat)
    requires id in Run(Init(reg, rec), steps).calls
    ensures var c := Run(Init(reg, rec), steps).calls[id];
            && c.records <= 1
            && (c.started && c.phase.Done? ==>
                  c.ending.Some? && (c.records == 1 <==> rec && Recordable(c.ending.value)))
  {
    RunKeepsInv(Init(reg, rec), steps);
    ConfigStays(Init(reg, rec), steps);
  }

  lemma {:induction false} ConfigStays(s: Sys, steps: seq<Step>)
    ensures Run(s, steps).registry == s.registry && Run(s, steps).recorder == s.recorder
    decreases |steps|
  {
    if steps != [] {
      ConfigStays(Next(s, steps[0]), steps[1..]);
    }
  }

  /** An ordinary request for a tool that needs no approval. */
  predicate Plain(r: Request)
  {
    r.args.Mapping? && r.input == Accepted && r.permitted && r.runId.Some? && r.grant.None? && r.dispatch.None?
  }

  function OneCall(r: Request, how: HandlerEnd): Sys
  {
    Run(Init(map[r.tool := Definition(false)], true), [Enter(0, r), RateDecided(0, true), HandlerEnds(0, how)])
  }

  predicate StartedUnrecorded(s: Sys)
  {
    0 in s.calls && s.calls[0].started && s.calls[0].phase.Done? && s.calls[0].records == 0
  }

  /** Every ending outside the condition is reached, by any ordinary request. */
  lemma UnrecordableEndings(r: Request, how: HandlerEnd)
    requires Plain(r)
    ensures StartedUnrecorded(OneCall(r, how)) <==> !Recordable(how)
  {
    var l := [Enter(0, r), RateDecided(0, true), HandlerEnds(0, how)];
    var s := Init(map[r.tool := Definition(false)], true);
    assert l[1..] == [l[1], l[2]] && l[1..][1..] == [l[2]] && l[1..][1..][1..] == [];
    var s1 := Next(s, l[0]);
    var s2 := Next(s1, l[1]);
    assert Run(s, l) == Run(s1, l[1..]);
    assert Run(s1, l[1..]) == Run(s2, l[1..][1..]);
    assert Run(s2, [l[2]]) == Next(s2, l[2]);
  }

  /** A dump that raises, such as a field without a JSON form. */
  lemma RaisingDumpLeavesNoRecord(r: Request, p: Projection)
    requires Plain(r)
    ensures StartedUnrecorded(OneCall(r, Returned(Accepted, DumpRaises, p)))
  {
    UnrecordableEndings(r, Returned(Accepted, DumpRaises, p));
  }

  /** A root model of a list: it validates and dumps, but has no status to look up. */
  lemma ListOutputLeavesNoRecord(r: Request, p: Projection)
    requires Plain(r)
    ensures StartedUnrecorded(OneCall(r, Returned(Accepted, NotDict, p)))
  {
    UnrecordableEndings(r, Returned(Accepted, NotDict, p));
  }

  /** A projection that adds a key of another type to the dump it is shown. */
  lemma SpoiltDumpLeavesNoRecord(r: Request, d: Dump)
    requires Plain(r)
    ensures StartedUnrecorded(OneCall(r, Returned(Accepted, d, Projected(false))))
  {
    UnrecordableEndings(r, Returned(Accepted, d, Projected(false)));
  }

  /** A projection that raises something that is not an `Exception`. */
  lemma EscapingProjectionLeavesNoRecord(r: Request, d: Dump)
    requires Plain(r)
    ensures StartedUnrecorded(OneCall(r, Returned(Accepted, d, ProjectionEscapes)))
  {
    UnrecordableEndings(r, Returned(Accepted, d, ProjectionEscapes));
  }

  /** A model constructed without a field, or a validator that raises a `KeyError`. */
  lemma UncaughtValidationLeavesNoRecord(r: Request, d: Dump, p: Projection)
    requires Plain(r)
    ensures StartedUnrecorded(OneCall(r, Returned(Uncaught, d, p)))
  {
    UnrecordableEndings(r, Returned(Uncaught, d, p));
  }

  /** A handler that cannot take its two arguments, or that raises no `Exception`. */
  lemma EscapingHandlerLeavesNoRecord(r: Request)
    requires Plain(r)
    ensures StartedUnrecorded(OneCall(r, CallRaises)) && StartedUnrecorded(OneCall(r, Escaped))
  {
    UnrecordableEndings(r, CallRaises);
    UnrecordableEndings(r, Escaped);
  }
}
