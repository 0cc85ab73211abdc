/** Rate cards: ceiling arithmetic, the catalog's uniqueness check and the choice of a
    price version. Decimal amounts are exact reals. */
module Pricing {
  import opened Text

  const NANOS := 1_000_000_000.0
  const MILLION := 1_000_000.0

  function Ceiling(x: real): (n: int)
    ensures x <= n as real < x + 1.0
  {
    -((-x).Floor)
  }

  function MoneyToNanos(v: real): int { Ceiling(v * NANOS) }

  datatype Usage = Usage(input: nat, output: nat, total: nat)

  type Rate = r: real | r >= 0.0

  datatype ModelPrice = ModelPrice(
    provider: string, model: string, providerVersion: Option<string>, priceVersion: string,
    currency: string, effectiveFrom: int, inputPerMillion: Rate, outputPerMillion: Rate)

  function TokenCost(rate: real, tokens: nat): real { rate * tokens as real }

  lemma TokenCostMonotone(rate: real, a: nat, b: nat)
    requires rate >= 0.0 && a <= b
    ensures 0.0 <= TokenCost(rate, a) <= TokenCost(rate, b)
  {
    ProductNonNegative(rate, a);
    ProductNonNegative(rate, b - a);
    assert TokenCost(rate, b) == TokenCost(rate, a) + TokenCost(rate, b - a);
  }

  lemma ProductNonNegative(rate: real, n: nat)
    requires rate >= 0.0
    ensures TokenCost(rate, n) >= 0.0
  {
  }

  /** The exact price of a usage, before rounding. */
  function ExactCost(p: ModelPrice, u: Usage): real
  {
    (TokenCost(p.inputPerMillion, u.input) + TokenCost(p.outputPerMillion, u.output)) / MILLION
  }

  function CostNanos(p: ModelPrice, u: Usage): (n: nat)
    ensures ExactCost(p, u) * NANOS <= n as real < ExactCost(p, u) * NANOS + 1.0
  {
    ProductNonNegative(p.inputPerMillion, u.input);
    ProductNonNegative(p.outputPerMillion, u.output);
    MoneyToNanos(ExactCost(p, u))
  }

  lemma RoundingMonotone(x: real, y: real)
    requires x <= y
    ensures MoneyToNanos(x / MILLION) <= MoneyToNanos(y / MILLION)
  {
    var a, b := x / MILLION * NANOS, y / MILLION * NANOS;
    assert a <= b;
    assert Ceiling(a) as real < b + 1.0 && b <= Ceiling(b) as real;
  }

  lemma SumMonotone(a: real, b: real, c: real, d: real)
    requires a <= c && b <= d
    ensures MoneyToNanos((a + b) / MILLION) <= MoneyToNanos((c + d) / MILLION)
  {
    RoundingMonotone(a + b, c + d);
  }

  /** More tokens never cost less, after rounding as before it. */
  lemma CostMonotone(p: ModelPrice, u: Usage, v: Usage)
    requires u.input <= v.input && u.output <= v.output
    ensures CostNanos(p, u) <= CostNanos(p, v)
  {
    TokenCostMonotone(p.inputPerMillion, u.input, v.input);
    TokenCostMonotone(p.outputPerMillion, u.output, v.output);
    SumMonotone(TokenCost(p.inputPerMillion, u.input), TokenCost(p.outputPerMillion, u.output),
                TokenCost(p.inputPerMillion, v.input), TokenCost(p.outputPerMillion, v.output));
  }

  // ---- the catalog's validator ----

  predicate SameOffer(p: ModelPrice, q: ModelPrice)
  {
    p.provider == q.provider && p.model == q.model && p.providerVersion == q.providerVersion
    && p.currency == q.currency
  }

  predicate Clash(p: ModelPrice, q: ModelPrice)
  {
    SameOffer(p, q) && (p.priceVersion == q.priceVersion || p.effectiveFrom == q.effectiveFrom)
  }

  /** No two entries of the same offer share a version name or a start date. */
  predicate Unambiguous(ps: seq<ModelPrice>)
  {
    forall i, j :: 0 <= i < j < |ps| ==> !Clash(ps[i], ps[j])
  }

  type Offer = (string, string, Option<string>, string)

  function OfferOf(p: ModelPrice): Offer { (p.provider, p.model, p.providerVersion, p.currency) }

  /** `_unambiguous_versions`: the two sets it fills decide exactly that. */
  method UnambiguousVersions(ps: seq<ModelPrice>) returns (ok: bool)
    ensures ok <==> Unambiguous(ps)
  {
    var versions: set<(Offer, string)>, dates: set<(Offer, int)> := {}, {};
    for k := 0 to |ps|
      invariant versions == set i | 0 <= i < k :: (OfferOf(ps[i]), ps[i].priceVersion)
      invariant dates == set i | 0 <= i < k :: (OfferOf(ps[i]), ps[i].effectiveFrom)
      invariant Unambiguous(ps[..k])
    {
      var versionKey := (OfferOf(ps[k]), ps[k].priceVersion);
      var dateKey := (OfferOf(ps[k]), ps[k].effectiveFrom);
      if versionKey in versions || dateKey in dates {
        var i :| 0 <= i < k && (versionKey == (OfferOf(ps[i]), ps[i].priceVersion)
                                || dateKey == (OfferOf(ps[i]), ps[i].effectiveFrom));
        assert Clash(ps[i], ps[k]);
        return false;
      }
      forall i | 0 <= i < k ensures !Clash(ps[i], ps[k]) {
        assert (OfferOf(ps[i]), ps[i].priceVersion) in versions;
        assert (OfferOf(ps[i]), ps[i].effectiveFrom) in dates;
      }
      versions := versions + {versionKey};
      dates := dates + {dateKey};
    }
    assert ps[..|ps|] == ps;
    ok := true;
  }

  // ---- choosing a price ----

  datatype Query = Query(provider: string, model: string, version: Option<string>, currency: string, at: int)

  predicate Eligible(p: ModelPrice, q: Query)
  {
    && p.provider == q.provider && p.model == q.model && p.currency == q.currency
    && p.effectiveFrom <= q.at
    && (p.providerVersion == None || p.providerVersion == q.version)
  }

  /** An exact provider version outranks the model-level fallback; then the later
      start date does. */
  predicate Outranks(p: ModelPrice, q: ModelPrice)
  {
    (p.providerVersion.Some? && q.providerVersion.None?)
    || (p.providerVersion.Some? == q.providerVersion.Some? && p.effectiveFrom > q.effectiveFrom)
  }

  /** `resolve`: the first eligible entry of highest rank. */
  function Resolve(ps: seq<ModelPrice>, q: Query): Option<ModelPrice>
  {
    if ps == [] then None
    else
      var best, p := Resolve(ps[..|ps| - 1], q), ps[|ps| - 1];
      if Eligible(p, q) && (best.None? || Outranks(p, best.value)) then Some(p) else best
  }

  /** It finds an eligible entry whenever there is one, and nothing eligible outranks it. */
  lemma {:induction false} ResolveIsBest(ps: seq<ModelPrice>, q: Query)
    ensures Resolve(ps, q).None? <==> forall p :: p in ps ==> !Eligible(p, q)
    ensures Resolve(ps, q).Some? ==>
              var r := Resolve(ps, q).value;
              r in ps && Eligible(r, q) && forall p :: p in ps && Eligible(p, q) ==> !Outranks(p, r)
  {
    if ps != [] {
      var init, p := ps[..|ps| - 1], ps[|ps| - 1];
      ResolveIsBest(init, q);
      assert ps == init + [p];
      assert forall x :: x in ps <==> x in init || x == p;
    }
  }

  lemma BestIsUnique(ps: seq<ModelPrice>, q: Query, p: ModelPrice, r: ModelPrice)
    requires Unambiguous(ps) && p in ps && r in ps && Eligible(p, q) && Eligible(r, q)
    requires !Outranks(p, r) && !Outranks(r, p)
    ensures p == r
  {
    var i :| 0 <= i < |ps| && ps[i] == p;
    var j :| 0 <= j < |ps| && ps[j] == r;
    assert SameOffer(p, r) && p.effectiveFrom == r.effectiveFrom;
    assert Clash(ps[i], ps[j]) && Clash(ps[j], ps[i]);
  }

  /** In a validated catalog the choice does not depend on the order of the entries,
      nor on entries that start later: a past call keeps its price when the catalog
      grows. */
  lemma ResolveIsStable(old': seq<ModelPrice>, new': seq<ModelPrice>, q: Query)
    requires Unambiguous(new')
    requires forall p :: p in old' ==> p in new'
    requires forall p :: p in new' ==> p in old' || p.effectiveFrom > q.at
    ensures Resolve(old', q) == Resolve(new', q)
  {
    ResolveIsBest(old', q);
    ResolveIsBest(new', q);
    if Resolve(old', q).Some? && Resolve(new', q).Some? {
      BestIsUnique(new', q, Resolve(old', q).value, Resolve(new', q).value);
    }
  }
}
