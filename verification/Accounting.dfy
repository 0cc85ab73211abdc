/** The cost accounting service over the ledger: the forecast a call reserves and the
    amount it settles at. */
module Accounting {
  import opened Text
  import opened Pricing
  import opened Ledger

  datatype Service = Service(
    catalog: seq<ModelPrice>, currency: string, limit: Option<int>, minimum: int,
    providerVersion: Option<string>, operation: string, periodOf: int -> string)

  datatype Identity = Identity(
    requestId: string, traceId: string, tenant: string, user: string, provider: string, model: string)

  /** `schemaBytes` is the serialised tool schema of a decision request. */
  datatype Request = Request(
    who: Identity, messages: seq<string>, schemaBytes: Option<nat>, maxOutput: Option<nat>)

  datatype Ticket = Ticket(id: string, request: Request, startedAt: int)

  /** What the provider reports; `usageMissing` is its count of unavailable usages. */
  datatype Metadata = Metadata(
    who: Identity, version: Option<string>, usage: Usage, usageMissing: bool, errored: bool)

  datatype BillingError = PriceMissing | OutputCapRequired | UsageMismatch

  datatype Result<T> = Ok(value: T) | Err(error: BillingError)

  function PriceFor(sv: Service, req: Request, version: Option<string>, at: int): Option<ModelPrice>
  {
    Resolve(sv.catalog, Query(req.who.provider, req.who.model, version, sv.currency, at))
  }

  function MessageBytes(ms: seq<string>): nat
  {
    if ms == [] then 0 else Bytes(ms[0]) + MessageBytes(ms[1..])
  }

  function InputEstimate(req: Request): nat
  {
    MessageBytes(req.messages) + 256 + if req.schemaBytes.Some? then req.schemaBytes.value else 0
  }

  function Max(a: int, b: int): int { if a >= b then a else b }

  /** The hold `begin` places: nothing without a budget, else the rounded cost of the
      input estimate and the output cap, and at least the minimum. */
  function Forecast(sv: Service, req: Request, at: int): Result<nat>
  {
    if sv.limit.None? then Ok(0)
    else
      match PriceFor(sv, req, sv.providerVersion, at)
      case None => Err(PriceMissing)
      case Some(p) =>
        if req.maxOutput.None? then Err(OutputCapRequired)
        else Ok(Max(sv.minimum, CostNanos(p, Usage(InputEstimate(req), req.maxOutput.value, 0))))
  }

  function KeyFor(sv: Service, t: Ticket): Key
  {
    Key(t.request.who.tenant, sv.currency, sv.periodOf(t.startedAt))
  }

  function NewCharge(sv: Service, t: Ticket, hold: nat): Charge
  {
    Charge(t.id, KeyFor(sv, t), t.startedAt, t.request.who.provider, t.request.who.model, sv.operation,
           hold, Reserved, false, None, None, None)
  }

  /** An amount needs a price, a known usage and a known split of its total. */
  function AmountFor(price: Option<ModelPrice>, m: Metadata): Option<nat>
  {
    var u := m.usage;
    if price.Some? && !m.usageMissing && (u.total == 0 || u.total == u.input + u.output)
    then Some(CostNanos(price.value, u)) else None
  }

  function VersionOf(price: Option<ModelPrice>): Option<string>
  {
    if price.Some? then Some(price.value.priceVersion) else None
  }

  /** `finish` with the provider's metadata. */
  function SettlementFor(sv: Service, t: Ticket, m: Metadata): Result<Settlement>
  {
    if m.who != t.request.who then Err(UsageMismatch)
    else
      var price := PriceFor(sv, t.request, m.version, t.startedAt);
      Ok(Settlement(if m.errored then Failed else Completed, !m.usageMissing, Some(m.usage),
                    AmountFor(price, m), VersionOf(price)))
  }

  /** `finish` without metadata: the usage is unknown and the hold stays. */
  function UnknownSettlement(sv: Service, t: Ticket, status: Status): Settlement
  {
    Settlement(status, false, None, None, VersionOf(PriceFor(sv, t.request, sv.providerVersion, t.startedAt)))
  }

  // ---- runs of the service ----

  /** Tickets handed out, and the ledger transactions sent, in order. */
  datatype Sys = Sys(tickets: map<string, Ticket>, ops: seq<Op>)

  const INIT := Sys(map[], [])

  function BookOf(s: Sys): Book { Run(EMPTY, s.ops) }

  datatype Step =
    | Begin(ticket: Ticket)
    | Finish(id: string, metadata: Metadata)
    | FinishUnknown(id: string, failed: bool)

  function Transact(s: Sys, op: Op): Sys { s.(ops := s.ops + [op]) }

  function Next(sv: Service, s: Sys, step: Step): Sys
  {
    match step
    case Begin(t) =>
      (match Forecast(sv, t.request, t.startedAt)
       case Err(_) => s
       case Ok(hold) =>
         var c := NewCharge(sv, t, hold);
         var s' := Transact(s, DoReserve(c, sv.limit));
         if CanReserve(BookOf(s), c, sv.limit) then s'.(tickets := s.tickets[t.id := t]) else s')
    case Finish(id, m) =>
      if id !in s.tickets then s
      else
        (match SettlementFor(sv, s.tickets[id], m)
         case Err(_) => s
         case Ok(st) => Transact(s, DoSettle(id, s.tickets[id].request.who.tenant, st)))
    case FinishUnknown(id, failed) =>
      if id !in s.tickets then s
      else Transact(s, DoSettle(id, s.tickets[id].request.who.tenant,
                                UnknownSettlement(sv, s.tickets[id], if failed then Failed else Incomplete)))
  }

  function After(sv: Service, steps: seq<Step>): Sys
  {
    if steps == [] then INIT else Next(sv, After(sv, steps[..|steps| - 1]), steps[|steps| - 1])
  }

  lemma BookAfterTransact(s: Sys, op: Op)
    ensures BookOf(Transact(s, op)) == Do(BookOf(s), op)
  {
    assert (s.ops + [op])[..|s.ops|] == s.ops;
  }

  /** What every row says about the call it belongs to. */
  predicate RowOk(sv: Service, tickets: map<string, Ticket>, c: Charge)
  {
    && c.id in tickets
    && c.key == KeyFor(sv, tickets[c.id]) && c.createdAt == tickets[c.id].startedAt
    && Forecast(sv, tickets[c.id].request, c.createdAt) == Ok(c.reserved)
    && (c.status == Reserved ==> c == NewCharge(sv, tickets[c.id], c.reserved))
    && (c.amount.Some? ==> c.usageKnown && (c.status == Completed || c.status == Failed))
  }

  predicate SysOk(sv: Service, s: Sys)
  {
    && AllWellFormed(s.ops)
    && (forall i :: 0 <= i < |BookOf(s).charges| ==> RowOk(sv, s.tickets, BookOf(s).charges[i]))
  }

  lemma BeginKeepsOk(sv: Service, s: Sys, t: Ticket)
    requires SysOk(sv, s)
    ensures SysOk(sv, Next(sv, s, Begin(t)))
  {
    var f := Forecast(sv, t.request, t.startedAt);
    if f.Ok? {
      var c := NewCharge(sv, t, f.value);
      BookAfterTransact(s, DoReserve(c, sv.limit));
      if t.id in s.tickets && CanReserve(BookOf(s), c, sv.limit) {
        RowsOfOthers(sv, s, t, c);
      }
    }
  }

  /** A reused identifier cannot take over the ticket of an existing row. */
  lemma RowsOfOthers(sv: Service, s: Sys, t: Ticket, c: Charge)
    requires SysOk(sv, s) && c.id == t.id && CanReserve(BookOf(s), c, sv.limit)
    ensures forall i :: 0 <= i < |BookOf(s).charges| ==> BookOf(s).charges[i].id != t.id
  {
  }

  lemma SettleKeepsOk(sv: Service, s: Sys, id: string, st: Settlement)
    requires SysOk(sv, s) && id in s.tickets && st.status != Reserved
    requires st.amount.Some? ==> st.usageKnown && st.tokens.Some? && (st.status == Completed || st.status == Failed)
    ensures SysOk(sv, Transact(s, DoSettle(id, s.tickets[id].request.who.tenant, st)))
  {
    BookAfterTransact(s, DoSettle(id, s.tickets[id].request.who.tenant, st));
  }

  lemma {:induction false} AfterIsOk(sv: Service, steps: seq<Step>)
    ensures SysOk(sv, After(sv, steps))
    decreases |steps|
  {
    if steps != [] {
      var s, step := After(sv, steps[..|steps| - 1]), steps[|steps| - 1];
      AfterIsOk(sv, steps[..|steps| - 1]);
      match step
      case Begin(t) => BeginKeepsOk(sv, s, t);
      case Finish(id, m) =>
        if id in s.tickets && SettlementFor(sv, s.tickets[id], m).Ok? {
          SettleKeepsOk(sv, s, id, SettlementFor(sv, s.tickets[id], m).value);
        }
      case FinishUnknown(id, failed) =>
        if id in s.tickets {
          SettleKeepsOk(sv, s, id, UnknownSettlement(sv, s.tickets[id], if failed then Failed else Incomplete));
        }
    }
  }

  /** What a finish sends for its ticket, if anything. */
  function SettlementOf(sv: Service, t: Ticket, step: Step): Option<Settlement>
  {
    match step
    case Begin(_) => None
    case Finish(_, m) => if SettlementFor(sv, t, m).Ok? then Some(SettlementFor(sv, t, m).value) else None
    case FinishUnknown(_, failed) => Some(UnknownSettlement(sv, t, if failed then Failed else Incomplete))
  }

  predicate Finishes(step: Step, id: string) { !step.Begin? && step.id == id }

  /** The step settles the row `was` into `c`, as a finish of its own ticket. */
  predicate SettlesRow(sv: Service, s: Sys, step: Step, was: Charge, c: Charge)
    requires was.id in s.tickets
  {
    && was.status == Reserved && Finishes(step, was.id) && SettlementOf(sv, s.tickets[was.id], step).Some?
    && c == Settled(was, SettlementOf(sv, s.tickets[was.id], step).value)
  }

  /** One step leaves a row and its ticket alone, adds the row, or settles it. */
  predicate RowStep(sv: Service, s: Sys, s': Sys, step: Step, i: nat)
    requires i < |BookOf(s').charges|
  {
    var c := BookOf(s').charges[i];
    if i >= |BookOf(s).charges| then c.status == Reserved
    else
      var was := BookOf(s).charges[i];
      && was.id in s.tickets && was.id == c.id && c.id in s'.tickets && s'.tickets[c.id] == s.tickets[c.id]
      && (c == was || SettlesRow(sv, s, step, was, c))
  }

  lemma SettleOnRow(sv: Service, s: Sys, step: Step, id: string, st: Settlement, i: nat)
    requires SysOk(sv, s) && id in s.tickets && Finishes(step, id) && SettlementOf(sv, s.tickets[id], step) == Some(st)
    requires i < |BookOf(Transact(s, DoSettle(id, s.tickets[id].request.who.tenant, st))).charges|
    ensures RowStep(sv, s, Transact(s, DoSettle(id, s.tickets[id].request.who.tenant, st)), step, i)
  {
    BookAfterTransact(s, DoSettle(id, s.tickets[id].request.who.tenant, st));
    assert i < |BookOf(s).charges| && RowOk(sv, s.tickets, BookOf(s).charges[i]);
  }

  lemma BeginOnRow(sv: Service, s: Sys, t: Ticket, i: nat)
    requires SysOk(sv, s) && i < |BookOf(Next(sv, s, Begin(t))).charges|
    ensures RowStep(sv, s, Next(sv, s, Begin(t)), Begin(t), i)
  {
    var f := Forecast(sv, t.request, t.startedAt);
    if f.Ok? {
      BookAfterTransact(s, DoReserve(NewCharge(sv, t, f.value), sv.limit));
    }
    if i < |BookOf(s).charges| {
      assert RowOk(sv, s.tickets, BookOf(s).charges[i]);
    }
  }

  lemma StepOnRow(sv: Service, s: Sys, step: Step, i: nat)
    requires SysOk(sv, s) && i < |BookOf(Next(sv, s, step)).charges|
    ensures RowStep(sv, s, Next(sv, s, step), step, i)
  {
    if step.Begin? {
      BeginOnRow(sv, s, step.ticket, i);
    } else if step.id in s.tickets && SettlementOf(sv, s.tickets[step.id], step).Some? {
      SettleOnRow(sv, s, step, step.id, SettlementOf(sv, s.tickets[step.id], step).value, i);
    } else {
      assert RowOk(sv, s.tickets, BookOf(s).charges[i]);
    }
  }

  /** Every settled row carries what one finish of its own call sent for its own ticket, on
      the row its begin wrote. */
  lemma {:induction false} SettledByOwnFinish(sv: Service, steps: seq<Step>, i: nat) returns (k: nat)
    requires i < |BookOf(After(sv, steps)).charges| && BookOf(After(sv, steps)).charges[i].status != Reserved
    ensures var c := BookOf(After(sv, steps)).charges[i];
            && k < |steps| && c.id in After(sv, steps).tickets && Finishes(steps[k], c.id)
            && var t := After(sv, steps).tickets[c.id];
               && SettlementOf(sv, t, steps[k]).Some?
               && c == Settled(NewCharge(sv, t, c.reserved), SettlementOf(sv, t, steps[k]).value)
    decreases |steps|
  {
    var init, step := steps[..|steps| - 1], steps[|steps| - 1];
    var s := After(sv, init);
    AfterIsOk(sv, init);
    StepOnRow(sv, s, step, i);
    if BookOf(After(sv, steps)).charges[i] == BookOf(s).charges[i] {
      k := SettledByOwnFinish(sv, init, i);
    } else {
      k := |steps| - 1;
      assert RowOk(sv, s.tickets, BookOf(s).charges[i]);
    }
  }

  // ---- the budget, end to end ----

  /** The call stayed within what `begin` forecast, at the price it was reserved with. */
  predicate WithinForecast(sv: Service, t: Ticket, m: Metadata)
  {
    && m.usage.input <= InputEstimate(t.request)
    && t.request.maxOutput.Some? && m.usage.output <= t.request.maxOutput.value
    && PriceFor(sv, t.request, m.version, t.startedAt) == PriceFor(sv, t.request, sv.providerVersion, t.startedAt)
  }

  /** Then its amount is at most its reservation. */
  lemma AmountWithinReservation(sv: Service, t: Ticket, m: Metadata)
    requires sv.limit.Some? && WithinForecast(sv, t, m)
    requires SettlementFor(sv, t, m).Ok? && SettlementFor(sv, t, m).value.amount.Some?
    requires Forecast(sv, t.request, t.startedAt).Ok?
    ensures SettlementFor(sv, t, m).value.amount.value <= Forecast(sv, t.request, t.startedAt).value
  {
    var p := PriceFor(sv, t.request, m.version, t.startedAt).value;
    CostMonotone(p, m.usage, Usage(InputEstimate(t.request), t.request.maxOutput.value, 0));
  }

  predicate StepWithin(sv: Service, s: Sys, step: Step)
  {
    step.Finish? && step.id in s.tickets ==> WithinForecast(sv, s.tickets[step.id], step.metadata)
  }

  predicate AllWithin(sv: Service, steps: seq<Step>)
  {
    forall k :: 0 <= k < |steps| ==> StepWithin(sv, After(sv, steps[..k]), steps[k])
  }

  predicate RowsWithin(cs: seq<Charge>)
  {
    forall i :: 0 <= i < |cs| && cs[i].amount.Some? ==> cs[i].amount.value <= cs[i].reserved
  }

  lemma FinishKeepsRowsWithin(sv: Service, s: Sys, id: string, m: Metadata)
    requires sv.limit.Some? && SysOk(sv, s) && RowsWithin(BookOf(s).charges)
    requires id in s.tickets && WithinForecast(sv, s.tickets[id], m)
    ensures RowsWithin(BookOf(Next(sv, s, Finish(id, m))).charges)
  {
    var t := s.tickets[id];
    if SettlementFor(sv, t, m).Ok? {
      var st := SettlementFor(sv, t, m).value;
      BookAfterTransact(s, DoSettle(id, t.request.who.tenant, st));
      var i := Claim(BookOf(s).charges, id, t.request.who.tenant);
      if i < |BookOf(s).charges| && st.amount.Some? {
        assert RowOk(sv, s.tickets, BookOf(s).charges[i]);
        AmountWithinReservation(sv, t, m);
      }
    }
  }

  lemma NextKeepsRowsWithin(sv: Service, s: Sys, step: Step)
    requires sv.limit.Some? && SysOk(sv, s) && RowsWithin(BookOf(s).charges) && StepWithin(sv, s, step)
    ensures RowsWithin(BookOf(Next(sv, s, step)).charges)
  {
    match step
    case Begin(t) =>
      var f := Forecast(sv, t.request, t.startedAt);
      if f.Ok? { BookAfterTransact(s, DoReserve(NewCharge(sv, t, f.value), sv.limit)); }
    case Finish(id, m) =>
      if id in s.tickets { FinishKeepsRowsWithin(sv, s, id, m); }
    case FinishUnknown(id, failed) =>
      if id in s.tickets {
        BookAfterTransact(s, DoSettle(id, s.tickets[id].request.who.tenant,
          UnknownSettlement(sv, s.tickets[id], if failed then Failed else Incomplete)));
      }
  }

  lemma {:induction false} RowsStayWithin(sv: Service, steps: seq<Step>)
    requires sv.limit.Some? && AllWithin(sv, steps)
    ensures RowsWithin(BookOf(After(sv, steps)).charges)
    decreases |steps|
  {
    if steps != [] {
      var init := steps[..|steps| - 1];
      assert forall k :: 0 <= k < |init| ==> steps[..k] == init[..k] && steps[k] == init[k];
      assert StepWithin(sv, After(sv, steps[..|init|]), steps[|init|]);
      RowsStayWithin(sv, init);
      AfterIsOk(sv, init);
      NextKeepsRowsWithin(sv, After(sv, init), steps[|steps| - 1]);
    }
  }

  lemma {:induction false} OpsUseLimit(sv: Service, steps: seq<Step>, key: Key)
    requires sv.limit.Some?
    ensures AllUseLimit(After(sv, steps).ops, key, sv.limit.value)
    decreases |steps|
  {
    if steps != [] {
      OpsUseLimit(sv, steps[..|steps| - 1], key);
    }
  }

  /** If every call stays within its forecast and settles at the price it was reserved
      with, no account ever exceeds the monthly budget, in any interleaving. */
  lemma BudgetNeverExceeded(sv: Service, steps: seq<Step>, key: Key)
    requires sv.limit.Some? && sv.limit.value >= 0 && AllWithin(sv, steps)
    ensures Committed(BookOf(After(sv, steps)), key) <= sv.limit.value
  {
    var s := After(sv, steps);
    AfterIsOk(sv, steps);
    OpsUseLimit(sv, steps, key);
    BudgetHoldsUpToOverruns(s.ops, key, sv.limit.value);
    RowsStayWithin(sv, steps);
    NoOverrun(BookOf(s).charges, key);
  }
}
