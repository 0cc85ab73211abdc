/** What the rows of the ledger say, in plain arithmetic: which price a call was held and
    charged at, for how many tokens, and how much. */
module AccountingRows {
  import opened Text
  import opened Pricing
  import opened Ledger
  import opened Accounting

  /** The amount is the exact price of the tokens, rounded up to a nano-unit. */
  predicate Costs(p: ModelPrice, input: nat, output: nat, amount: int)
  {
    var nanos := (p.inputPerMillion * input as real + p.outputPerMillion * output as real) / 1000000.0 * 1000000000.0;
    nanos <= amount as real < nanos + 1.0
  }

  lemma CostIsPlain(p: ModelPrice, u: Usage)
    ensures Costs(p, u.input, u.output, CostNanos(p, u))
  {
  }

  /** The catalog entry can price the call. */
  predicate Applies(p: ModelPrice, sv: Service, t: Ticket, version: Option<string>)
  {
    && p in sv.catalog && p.provider == t.request.who.provider && p.model == t.request.who.model
    && p.currency == sv.currency && p.effectiveFrom <= t.startedAt
    && (p.providerVersion == None || p.providerVersion == version)
  }

  /** It is the one to use: entries for the very provider version come first, and among
      entries of a kind the one that started last. */
  ghost predicate Prices(p: ModelPrice, sv: Service, t: Ticket, version: Option<string>)
  {
    && Applies(p, sv, t, version)
    && forall q :: q in sv.catalog && Applies(q, sv, t, version) ==>
         && (q.providerVersion.Some? ==> p.providerVersion.Some?)
         && (q.providerVersion.Some? == p.providerVersion.Some? ==> q.effectiveFrom <= p.effectiveFrom)
  }

  lemma PriceIsTheOne(sv: Service, t: Ticket, version: Option<string>)
    ensures var p := PriceFor(sv, t.request, version, t.startedAt);
            && (p.Some? <==> exists q :: q in sv.catalog && Applies(q, sv, t, version))
            && (p.Some? ==> Prices(p.value, sv, t, version))
  {
    var q := Query(t.request.who.provider, t.request.who.model, version, sv.currency, t.startedAt);
    ResolveIsBest(sv.catalog, q);
    assert forall p :: p in sv.catalog ==> (Applies(p, sv, t, version) <==> Eligible(p, q));
    if Resolve(sv.catalog, q).Some? {
      var r := Resolve(sv.catalog, q).value;
      forall p | p in sv.catalog && Applies(p, sv, t, version)
        ensures (p.providerVersion.Some? ==> r.providerVersion.Some?)
        ensures p.providerVersion.Some? == r.providerVersion.Some? ==> p.effectiveFrom <= r.effectiveFrom
      {
        assert !Outranks(p, r);
      }
    }
  }

  /** The usage tells how many tokens were read and how many written. */
  predicate SplitKnown(u: Usage) { u.total == 0 || u.total == u.input + u.output }

  /** A finish with the provider's metadata: the row has its status, usage and tokens; it has
      an amount exactly when the usage and its split are known and a catalog entry applies;
      and then the entry to use gives the amount and the version. */
  ghost predicate SaysMetadata(sv: Service, t: Ticket, m: Metadata, c: Charge)
  {
    && m.who == t.request.who
    && c.status == (if m.errored then Failed else Completed)
    && c.tokens == Some(m.usage) && c.usageKnown == !m.usageMissing
    && (c.priceVersion.Some? <==> exists q :: q in sv.catalog && Applies(q, sv, t, m.version))
    && (c.amount.Some? <==> !m.usageMissing && SplitKnown(m.usage) && c.priceVersion.Some?)
    && (c.priceVersion.Some? ==> ChargedBy(sv, t, m, c))
  }

  ghost predicate ChargedBy(sv: Service, t: Ticket, m: Metadata, c: Charge)
  {
    exists p :: p in sv.catalog && Prices(p, sv, t, m.version) && c.priceVersion == Some(p.priceVersion)
                && (c.amount.Some? ==> Costs(p, m.usage.input, m.usage.output, c.amount.value))
  }

  /** A finish without metadata: nothing is known and nothing charged. */
  predicate SaysUnknown(failed: bool, c: Charge)
  {
    && c.status == (if failed then Failed else Incomplete)
    && c.tokens == None && c.amount == None && !c.usageKnown
  }

  lemma MetadataLaw(sv: Service, t: Ticket, m: Metadata, was: Charge)
    requires SettlementFor(sv, t, m).Ok?
    ensures SaysMetadata(sv, t, m, Settled(was, SettlementFor(sv, t, m).value))
  {
    hide CostNanos, Costs;
    PriceIsTheOne(sv, t, m.version);
    var p := PriceFor(sv, t.request, m.version, t.startedAt);
    var c := Settled(was, SettlementFor(sv, t, m).value);
    if p.Some? {
      CostIsPlain(p.value, m.usage);
      assert p.value in sv.catalog && Prices(p.value, sv, t, m.version);
      assert ChargedBy(sv, t, m, c);
    }
  }

  /** The row still tells whose call it is, when it began and what was held for it. */
  predicate SaysBegin(sv: Service, t: Ticket, c: Charge)
  {
    && c.id == t.id && c.key == Key(t.request.who.tenant, sv.currency, sv.periodOf(t.startedAt))
    && c.createdAt == t.startedAt && c.provider == t.request.who.provider && c.model == t.request.who.model
    && c.operation == sv.operation
  }

  ghost predicate Says(sv: Service, t: Ticket, step: Step, c: Charge)
  {
    && SaysBegin(sv, t, c)
    && match step
       case Begin(_) => false
       case Finish(_, m) => SaysMetadata(sv, t, m, c)
       case FinishUnknown(_, failed) => SaysUnknown(failed, c)
  }

  /** Every settled row of every run, in plain terms: it belongs to the ticket its begin
      handed out, and says what one finish of that very call reported. */
  lemma SettledRowSays(sv: Service, steps: seq<Step>, i: nat) returns (k: nat)
    requires i < |BookOf(After(sv, steps)).charges| && BookOf(After(sv, steps)).charges[i].status != Reserved
    ensures var c := BookOf(After(sv, steps)).charges[i];
            && k < |steps| && Finishes(steps[k], c.id) && c.id in After(sv, steps).tickets
            && Says(sv, After(sv, steps).tickets[c.id], steps[k], c)
  {
    hide After, BookOf, SettlementFor, SaysMetadata;
    k := SettledByOwnFinish(sv, steps, i);
    var c := BookOf(After(sv, steps)).charges[i];
    var t := After(sv, steps).tickets[c.id];
    if steps[k].Finish? {
      MetadataLaw(sv, t, steps[k].metadata, NewCharge(sv, t, c.reserved));
    }
  }

  /** The hold of a call under a budget: the rounded price of the bytes it sends, an allowance
      of 256, its tool schema and all the tokens it may write, but at least the minimum. */
  ghost predicate Holds(sv: Service, t: Ticket, hold: nat) { exists p, cost :: HoldsBy(sv, t, hold, p, cost) }

  ghost predicate HoldsBy(sv: Service, t: Ticket, hold: nat, p: ModelPrice, cost: int)
  {
    var sends := MessageBytes(t.request.messages) + 256
                 + if t.request.schemaBytes.Some? then t.request.schemaBytes.value else 0;
    && t.request.maxOutput.Some? && Prices(p, sv, t, sv.providerVersion)
    && Costs(p, sends, t.request.maxOutput.value, cost)
    && hold == if cost >= sv.minimum then cost else sv.minimum
  }

  /** `begin` holds nothing without a budget; with one it fails exactly without a price or an
      output cap, and else holds the forecast. */
  lemma HoldSays(sv: Service, t: Ticket)
    ensures var f := Forecast(sv, t.request, t.startedAt);
            && (sv.limit.None? ==> f == Ok(0))
            && (sv.limit.Some? ==>
                  && (f == Err(PriceMissing) <==> !exists q :: q in sv.catalog && Applies(q, sv, t, sv.providerVersion))
                  && (f.Ok? ==> Holds(sv, t, f.value))
                  && (f == Err(OutputCapRequired) <==> f != Err(PriceMissing) && t.request.maxOutput.None?))
  {
    hide CostNanos, Costs;
    PriceIsTheOne(sv, t, sv.providerVersion);
    var f := Forecast(sv, t.request, t.startedAt);
    if sv.limit.Some? && f.Ok? {
      var p := PriceFor(sv, t.request, sv.providerVersion, t.startedAt).value;
      var u := Usage(InputEstimate(t.request), t.request.maxOutput.value, 0);
      CostIsPlain(p, u);
      assert HoldsBy(sv, t, f.value, p, CostNanos(p, u));
    }
  }
}
