/** Business metrics as folds over the charges, and how they reconcile with the monthly
    accounts and with their own breakdown. */
module LedgerMetrics {
  import opened Text
  import opened Ledger
  import opened Accounting

  /** A tenant's charges in one currency over a half-open interval. */
  datatype Scope = Scope(tenant: string, currency: string, start: int, end: int)

  predicate In(sc: Scope, c: Charge)
  {
    c.key.tenant == sc.tenant && c.key.currency == sc.currency && sc.start <= c.createdAt < sc.end
  }

  /** A column counted or summed over the charges in scope. */
  function Scoped(sc: Scope, w: Charge -> int): Charge -> int
  {
    (c: Charge) => if In(sc, c) then w(c) else 0
  }

  function When(p: Charge -> bool): Charge -> int { (c: Charge) => if p(c) then 1 else 0 }

  function Amount(c: Charge): int { if c.amount.Some? then c.amount.value else 0 }
  function Pending(c: Charge): int { if c.amount.None? then c.reserved else 0 }
  function InputTokens(c: Charge): int { if c.tokens.Some? then c.tokens.value.input else 0 }
  function OutputTokens(c: Charge): int { if c.tokens.Some? then c.tokens.value.output else 0 }
  function TotalTokens(c: Charge): int { if c.tokens.Some? then c.tokens.value.total else 0 }
  predicate Succeeded(c: Charge) { c.status == Completed }
  predicate HasFailed(c: Charge) { c.status == Failed }
  predicate Unfinished(c: Charge) { c.status == Reserved || c.status == Incomplete }
  predicate UnknownUsage(c: Charge) { !c.usageKnown }
  predicate Unpriced(c: Charge) { c.usageKnown && c.amount.None? }
  predicate Any(c: Charge) { true }

  datatype GroupKey = GroupKey(provider: string, model: string, priceVersion: Option<string>, operation: string)

  function GroupOf(c: Charge): GroupKey { GroupKey(c.provider, c.model, c.priceVersion, c.operation) }

  datatype Breakdown = Breakdown(
    group: GroupKey, calls: int, input: int, output: int, total: int, cost: int, unpriced: int)

  datatype Metrics = Metrics(
    calls: int, successful: int, failed: int, incomplete: int, unknown: int, unpriced: int,
    input: int, output: int, total: int, cost: int, pending: int, costComplete: bool)

  /** `metrics`, the single row of totals. */
  function MetricsOf(cs: seq<Charge>, sc: Scope): Metrics
  {
    var incomplete := Total(cs, Scoped(sc, When(Unfinished)));
    var unknown := Total(cs, Scoped(sc, When(UnknownUsage)));
    var unpriced := Total(cs, Scoped(sc, When(Unpriced)));
    Metrics(Total(cs, Scoped(sc, When(Any))), Total(cs, Scoped(sc, When(Succeeded))),
            Total(cs, Scoped(sc, When(HasFailed))), incomplete, unknown, unpriced,
            Total(cs, Scoped(sc, InputTokens)), Total(cs, Scoped(sc, OutputTokens)),
            Total(cs, Scoped(sc, TotalTokens)), Total(cs, Scoped(sc, Amount)), Total(cs, Scoped(sc, Pending)),
            unknown == 0 && unpriced == 0 && incomplete == 0)
  }

  lemma {:induction false} SameTotals(cs: seq<Charge>, f: Charge -> int, g: Charge -> int)
    requires forall i :: 0 <= i < |cs| ==> f(cs[i]) == g(cs[i])
    ensures Total(cs, f) == Total(cs, g)
  {
    if cs != [] {
      SameTotals(cs[..|cs| - 1], f, g);
    }
  }

  lemma {:induction false} TotalsAdd(
      cs: seq<Charge>, f: Charge -> int, g: Charge -> int, h: Charge -> int, sum: Charge -> int)
    requires forall c :: sum(c) == f(c) + g(c) + h(c)
    ensures Total(cs, sum) == Total(cs, f) + Total(cs, g) + Total(cs, h)
  {
    if cs != [] {
      TotalsAdd(cs[..|cs| - 1], f, g, h, sum);
    }
  }

  lemma {:induction false} NoneCounted(cs: seq<Charge>, sc: Scope, p: Charge -> bool)
    ensures Total(cs, Scoped(sc, When(p))) >= 0
    ensures Total(cs, Scoped(sc, When(p))) == 0 <==> forall i :: 0 <= i < |cs| && In(sc, cs[i]) ==> !p(cs[i])
  {
    if cs != [] {
      var init := cs[..|cs| - 1];
      NoneCounted(init, sc, p);
      assert forall i :: 0 <= i < |init| ==> init[i] == cs[i];
      assert forall i :: 0 <= i < |cs| ==> i < |init| || cs[i] == cs[|cs| - 1];
    }
  }

  // ---- reconciliation with the accounts ----

  /** The scope is exactly one calendar month. */
  ghost predicate CoversMonth(sv: Service, sc: Scope, period: string)
  {
    && sc.currency == sv.currency
    && forall t: int :: sv.periodOf(t) == period <==> sc.start <= t < sc.end
  }

  lemma ColumnsAgree(sc: Scope, key: Key, c: Charge)
    requires In(sc, c) <==> c.key == key
    ensures Scoped(sc, Amount)(c) == AmountIn(key)(c)
    ensures Scoped(sc, Pending)(c) == HoldIn(key)(c)
  {
    assert Amount(c) >= 0 && Pending(c) >= 0;
  }

  /** Over a whole calendar month, scanning the charges gives the account's running
      totals, after any interleaving of calls. */
  lemma MonthMatchesAccount(sv: Service, steps: seq<Step>, sc: Scope, period: string)
    requires CoversMonth(sv, sc, period)
    ensures var b := BookOf(After(sv, steps));
            var a := Balance(b, Key(sc.tenant, sc.currency, period));
            MetricsOf(b.charges, sc).cost == a.spent && MetricsOf(b.charges, sc).pending == a.reserved
  {
    var s := After(sv, steps);
    var cs, key := BookOf(s).charges, Key(sc.tenant, sc.currency, period);
    AfterIsOk(sv, steps);
    AccountsMatchCharges(s.ops, key);
    forall i | 0 <= i < |cs|
      ensures Scoped(sc, Amount)(cs[i]) == AmountIn(key)(cs[i])
      ensures Scoped(sc, Pending)(cs[i]) == HoldIn(key)(cs[i])
    {
      assert RowOk(sv, s.tickets, cs[i]);
      ColumnsAgree(sc, key, cs[i]);
    }
    SameTotals(cs, Scoped(sc, Amount), AmountIn(key));
    SameTotals(cs, Scoped(sc, Pending), HoldIn(key));
  }

  /** `cost_complete` says exactly that every charge in the interval has an amount. */
  lemma CostCompleteMeansAllPriced(sv: Service, steps: seq<Step>, sc: Scope)
    ensures var cs := BookOf(After(sv, steps)).charges;
            MetricsOf(cs, sc).costComplete <==> forall i :: 0 <= i < |cs| && In(sc, cs[i]) ==> cs[i].amount.Some?
  {
    var s := After(sv, steps);
    var cs := BookOf(s).charges;
    AfterIsOk(sv, steps);
    assert forall i :: 0 <= i < |cs| ==> RowOk(sv, s.tickets, cs[i]);
    NoneCounted(cs, sc, Unfinished);
    NoneCounted(cs, sc, UnknownUsage);
    NoneCounted(cs, sc, Unpriced);
  }

  /** Every call is counted under exactly one outcome. */
  lemma CallsPartition(cs: seq<Charge>, sc: Scope)
    ensures var m := MetricsOf(cs, sc);
            m.calls == m.successful + m.failed + m.incomplete
  {
    forall c: Charge
      ensures Scoped(sc, When(Any))(c) ==
              Scoped(sc, When(Succeeded))(c) + Scoped(sc, When(HasFailed))(c) + Scoped(sc, When(Unfinished))(c)
    {
      assert When(Any)(c) == if Any(c) then 1 else 0;
      assert When(Succeeded)(c) == if Succeeded(c) then 1 else 0;
      assert When(HasFailed)(c) == if HasFailed(c) then 1 else 0;
      assert When(Unfinished)(c) == if Unfinished(c) then 1 else 0;
    }
    TotalsAdd(cs, Scoped(sc, When(Succeeded)), Scoped(sc, When(HasFailed)), Scoped(sc, When(Unfinished)),
              Scoped(sc, When(Any)));
  }

  // ---- the grouped breakdown ----

  /** A column restricted to one group. */
  function InGroup(w: Charge -> int, g: GroupKey): Charge -> int
  {
    (c: Charge) => if GroupOf(c) == g then w(c) else 0
  }

  function BreakdownOf(cs: seq<Charge>, sc: Scope, g: GroupKey): Breakdown
  {
    Breakdown(g, Total(cs, InGroup(Scoped(sc, When(Any)), g)), Total(cs, InGroup(Scoped(sc, InputTokens), g)),
              Total(cs, InGroup(Scoped(sc, OutputTokens), g)), Total(cs, InGroup(Scoped(sc, TotalTokens), g)),
              Total(cs, InGroup(Scoped(sc, Amount), g)), Total(cs, InGroup(Scoped(sc, When(Unpriced)), g)))
  }

  predicate Distinct(gs: seq<GroupKey>) { forall i, j :: 0 <= i < j < |gs| ==> gs[i] != gs[j] }

  function GroupSum(cs: seq<Charge>, w: Charge -> int, gs: seq<GroupKey>): int
  {
    if gs == [] then 0 else GroupSum(cs, w, gs[..|gs| - 1]) + Total(cs, InGroup(w, gs[|gs| - 1]))
  }

  lemma {:induction false} GroupSumEmpty(w: Charge -> int, gs: seq<GroupKey>)
    ensures GroupSum([], w, gs) == 0
  {
    if gs != [] {
      GroupSumEmpty(w, gs[..|gs| - 1]);
    }
  }

  /** One more charge raises the sum by its weight, once, if its group is listed. */
  lemma {:induction false} GroupSumAppend(cs: seq<Charge>, c: Charge, w: Charge -> int, gs: seq<GroupKey>)
    requires Distinct(gs)
    ensures GroupSum(cs + [c], w, gs) == GroupSum(cs, w, gs) + if GroupOf(c) in gs then w(c) else 0
    decreases |gs|
  {
    if gs != [] {
      var init, g := gs[..|gs| - 1], gs[|gs| - 1];
      GroupSumAppend(cs, c, w, init);
      TotalAppend(cs, c, InGroup(w, g));
      assert gs == init + [g];
      assert forall i :: 0 <= i < |init| ==> init[i] == gs[i] && init[i] != g;
      assert GroupOf(c) in gs <==> GroupOf(c) in init || GroupOf(c) == g;
    }
  }

  /** For any listing of the groups, in any order, a column summed over the groups is
      the column's total. */
  lemma {:induction false} BreakdownSumsBack(cs: seq<Charge>, w: Charge -> int, gs: seq<GroupKey>)
    requires Distinct(gs)
    requires forall i :: 0 <= i < |cs| && w(cs[i]) != 0 ==> GroupOf(cs[i]) in gs
    ensures GroupSum(cs, w, gs) == Total(cs, w)
    decreases |cs|
  {
    if cs == [] {
      GroupSumEmpty(w, gs);
    } else {
      var init, c := cs[..|cs| - 1], cs[|cs| - 1];
      assert cs == init + [c];
      assert forall i :: 0 <= i < |init| ==> init[i] == cs[i];
      BreakdownSumsBack(init, w, gs);
      GroupSumAppend(init, c, w, gs);
      assert w(cs[|cs| - 1]) != 0 ==> GroupOf(c) in gs;
    }
  }

  /** Sums the columns of a whole breakdown. */
  function SumRows(rows: seq<Breakdown>): Breakdown
  {
    if rows == [] then Breakdown(GroupKey("", "", None, ""), 0, 0, 0, 0, 0, 0)
    else
      var r, x := SumRows(rows[..|rows| - 1]), rows[|rows| - 1];
      r.(calls := r.calls + x.calls, input := r.input + x.input, output := r.output + x.output,
         total := r.total + x.total, cost := r.cost + x.cost, unpriced := r.unpriced + x.unpriced)
  }

  /** What GROUP BY promises of its rows, in whatever order: each group once, with that
      group's sums, and no charge of the scope left out. */
  predicate Groups(cs: seq<Charge>, sc: Scope, rows: seq<Breakdown>, gs: seq<GroupKey>)
  {
    && Distinct(gs) && |rows| == |gs|
    && (forall k :: 0 <= k < |rows| ==> rows[k] == BreakdownOf(cs, sc, gs[k]))
    && (forall i :: 0 <= i < |cs| && In(sc, cs[i]) ==> GroupOf(cs[i]) in gs)
  }

  lemma {:induction false} RowsAreGroupSums(cs: seq<Charge>, sc: Scope, rows: seq<Breakdown>, gs: seq<GroupKey>)
    requires |rows| == |gs| && forall k :: 0 <= k < |rows| ==> rows[k] == BreakdownOf(cs, sc, gs[k])
    ensures var r := SumRows(rows);
            && r.calls == GroupSum(cs, Scoped(sc, When(Any)), gs)
            && r.input == GroupSum(cs, Scoped(sc, InputTokens), gs)
            && r.output == GroupSum(cs, Scoped(sc, OutputTokens), gs)
            && r.total == GroupSum(cs, Scoped(sc, TotalTokens), gs)
            && r.cost == GroupSum(cs, Scoped(sc, Amount), gs)
            && r.unpriced == GroupSum(cs, Scoped(sc, When(Unpriced)), gs)
    decreases |rows|
  {
    if rows != [] {
      RowsAreGroupSums(cs, sc, rows[..|rows| - 1], gs[..|gs| - 1]);
      assert rows[|rows| - 1] == BreakdownOf(cs, sc, gs[|gs| - 1]);
    }
  }

  /** The breakdown adds back up to every total of the metrics. */
  lemma BreakdownReconciles(cs: seq<Charge>, sc: Scope, rows: seq<Breakdown>, gs: seq<GroupKey>)
    requires Groups(cs, sc, rows, gs)
    ensures var r, m := SumRows(rows), MetricsOf(cs, sc);
            && r.calls == m.calls && r.input == m.input && r.output == m.output
            && r.total == m.total && r.cost == m.cost && r.unpriced == m.unpriced
  {
    RowsAreGroupSums(cs, sc, rows, gs);
    BreakdownSumsBack(cs, Scoped(sc, When(Any)), gs);
    BreakdownSumsBack(cs, Scoped(sc, InputTokens), gs);
    BreakdownSumsBack(cs, Scoped(sc, OutputTokens), gs);
    BreakdownSumsBack(cs, Scoped(sc, TotalTokens), gs);
    BreakdownSumsBack(cs, Scoped(sc, Amount), gs);
    BreakdownSumsBack(cs, Scoped(sc, When(Unpriced)), gs);
  }

  /** One more charge in the interval: it counts as one call, under its own outcome, with its
      own tokens and amount, or with its hold if it has none. */
  lemma OneMoreCharge(cs: seq<Charge>, c: Charge, sc: Scope)
    requires c.key.tenant == sc.tenant && c.key.currency == sc.currency && sc.start <= c.createdAt < sc.end
    ensures var m, m' := MetricsOf(cs, sc), MetricsOf(cs + [c], sc);
            && m'.calls == m.calls + 1
            && m'.successful == m.successful + (if c.status == Completed then 1 else 0)
            && m'.failed == m.failed + (if c.status == Failed then 1 else 0)
            && m'.incomplete == m.incomplete + (if c.status == Incomplete || c.status == Reserved then 1 else 0)
            && m'.unknown == m.unknown + (if c.usageKnown then 0 else 1)
            && m'.unpriced == m.unpriced + (if c.usageKnown && c.amount.None? then 1 else 0)
    ensures var m, m' := MetricsOf(cs, sc), MetricsOf(cs + [c], sc);
            && m'.input == m.input + (if c.tokens.Some? then c.tokens.value.input else 0)
            && m'.output == m.output + (if c.tokens.Some? then c.tokens.value.output else 0)
            && m'.total == m.total + (if c.tokens.Some? then c.tokens.value.total else 0)
            && m'.cost == m.cost + (if c.amount.Some? then c.amount.value else 0)
            && m'.pending == m.pending + (if c.amount.Some? then 0 else c.reserved)
  {
    hide MetricsOf;
    CountsMore(cs, c, sc);
    SumsMore(cs, c, sc);
  }

  lemma SumsMore(cs: seq<Charge>, c: Charge, sc: Scope)
    requires In(sc, c)
    ensures var m, m' := MetricsOf(cs, sc), MetricsOf(cs + [c], sc);
            && m'.input == m.input + InputTokens(c)
            && m'.output == m.output + OutputTokens(c)
            && m'.total == m.total + TotalTokens(c)
            && m'.cost == m.cost + Amount(c)
            && m'.pending == m.pending + Pending(c)
  {
    hide Total, Scoped, When, InputTokens, OutputTokens, TotalTokens, Amount, Pending;
    SumMore(cs, c, sc, InputTokens);
    SumMore(cs, c, sc, OutputTokens);
    SumMore(cs, c, sc, TotalTokens);
    SumMore(cs, c, sc, Amount);
    SumMore(cs, c, sc, Pending);
  }

  lemma SumMore(cs: seq<Charge>, c: Charge, sc: Scope, w: Charge -> int)
    requires In(sc, c)
    ensures Total(cs + [c], Scoped(sc, w)) == Total(cs, Scoped(sc, w)) + w(c)
  {
    TotalAppend(cs, c, Scoped(sc, w));
  }

  lemma CountsMore(cs: seq<Charge>, c: Charge, sc: Scope)
    requires In(sc, c)
    ensures var m, m' := MetricsOf(cs, sc), MetricsOf(cs + [c], sc);
            && m'.calls == m.calls + 1
            && m'.successful == m.successful + (if Succeeded(c) then 1 else 0)
            && m'.failed == m.failed + (if HasFailed(c) then 1 else 0)
            && m'.incomplete == m.incomplete + (if Unfinished(c) then 1 else 0)
            && m'.unknown == m.unknown + (if UnknownUsage(c) then 1 else 0)
            && m'.unpriced == m.unpriced + (if Unpriced(c) then 1 else 0)
  {
    hide Total, Scoped, When;
    CountMore(cs, c, sc, Any);
    CountMore(cs, c, sc, Succeeded);
    CountMore(cs, c, sc, HasFailed);
    CountMore(cs, c, sc, Unfinished);
    CountMore(cs, c, sc, UnknownUsage);
    CountMore(cs, c, sc, Unpriced);
  }

  lemma CountMore(cs: seq<Charge>, c: Charge, sc: Scope, p: Charge -> bool)
    requires In(sc, c)
    ensures Total(cs + [c], Scoped(sc, When(p))) == Total(cs, Scoped(sc, When(p))) + if p(c) then 1 else 0
  {
    TotalAppend(cs, c, Scoped(sc, When(p)));
  }

  /** A charge outside the interval, of another tenant or in another currency counts nowhere. */
  lemma OthersDoNotCount(cs: seq<Charge>, c: Charge, sc: Scope)
    requires !(c.key.tenant == sc.tenant && c.key.currency == sc.currency && sc.start <= c.createdAt < sc.end)
    ensures MetricsOf(cs + [c], sc) == MetricsOf(cs, sc) && MetricsOf([], sc).calls == 0
  {
    hide Scoped, When;
    SumSame(cs, c, sc, When(Any));
    SumSame(cs, c, sc, When(Succeeded));
    SumSame(cs, c, sc, When(HasFailed));
    SumSame(cs, c, sc, When(Unfinished));
    SumSame(cs, c, sc, When(UnknownUsage));
    SumSame(cs, c, sc, When(Unpriced));
    SumSame(cs, c, sc, InputTokens);
    SumSame(cs, c, sc, OutputTokens);
    SumSame(cs, c, sc, TotalTokens);
    SumSame(cs, c, sc, Amount);
    SumSame(cs, c, sc, Pending);
  }

  lemma SumSame(cs: seq<Charge>, c: Charge, sc: Scope, w: Charge -> int)
    requires !In(sc, c)
    ensures Total(cs + [c], Scoped(sc, w)) == Total(cs, Scoped(sc, w))
  {
    TotalAppend(cs, c, Scoped(sc, w));
  }
}
