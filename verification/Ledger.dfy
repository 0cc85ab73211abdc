/** The cost ledger: usage charges, monthly accounts, and the reserve and settle
    transactions over them. A run is any interleaving of whole transactions. */
module Ledger {
  import opened Text
  import opened Pricing

  datatype Status = Reserved | Completed | Failed | Incomplete

  datatype Key = Key(tenant: string, currency: string, period: string)

  datatype Charge = Charge(
    id: string, key: Key, createdAt: int,
    provider: string, model: string, operation: string,
    reserved: nat, status: Status, usageKnown: bool, tokens: Option<Usage>,
    amount: Option<nat>, priceVersion: Option<string>)

  datatype Account = Account(spent: int, reserved: int)

  datatype Book = Book(accounts: map<Key, Account>, charges: seq<Charge>)

  const EMPTY := Book(map[], [])

  /** What a settlement writes into its charge. */
  datatype Settlement = Settlement(
    status: Status, usageKnown: bool, tokens: Option<Usage>, amount: Option<nat>,
    priceVersion: Option<string>)

  /** A key with no account row reads as an empty account. */
  function Balance(b: Book, key: Key): Account
  {
    if key in b.accounts then b.accounts[key] else Account(0, 0)
  }

  predicate Known(cs: seq<Charge>, id: string) { exists i :: 0 <= i < |cs| && cs[i].id == id }

  predicate FitsBudget(b: Book, c: Charge, limit: Option<int>)
  {
    limit.Some? ==>
      Balance(b, c.key).spent + Balance(b, c.key).reserved + c.reserved <= limit.value
  }

  /** Whether the reservation commits; otherwise the transaction is rolled back whole. */
  predicate CanReserve(b: Book, c: Charge, limit: Option<int>)
  {
    FitsBudget(b, c, limit) && !Known(b.charges, c.id)
  }

  function ReserveIn(b: Book, c: Charge, limit: Option<int>): Book
  {
    if !CanReserve(b, c, limit) then b
    else
      var a := Balance(b, c.key);
      Book(b.accounts[c.key := Account(a.spent, a.reserved + c.reserved)], b.charges + [c])
  }

  predicate Claimable(c: Charge, id: string, tenant: string)
  {
    c.id == id && c.key.tenant == tenant && c.status == Reserved
  }

  /** Index of the charge a settlement may claim, or the number of charges. */
  function Claim(cs: seq<Charge>, id: string, tenant: string): (i: nat)
    ensures i <= |cs|
    ensures i < |cs| ==> Claimable(cs[i], id, tenant)
    ensures i == |cs| ==> forall k :: 0 <= k < |cs| ==> !Claimable(cs[k], id, tenant)
  {
    if cs == [] then 0
    else if Claimable(cs[0], id, tenant) then 0
    else
      var i := Claim(cs[1..], id, tenant);
      assert forall k :: 1 <= k < |cs| ==> cs[k] == cs[1..][k - 1];
      1 + i
  }

  function Settled(c: Charge, s: Settlement): Charge
  {
    c.(status := s.status, usageKnown := s.tokens.Some? && s.usageKnown, tokens := s.tokens,
       amount := s.amount, priceVersion := s.priceVersion)
  }

  function SettleIn(b: Book, id: string, tenant: string, s: Settlement): Book
  {
    var i := Claim(b.charges, id, tenant);
    if i == |b.charges| then b
    else
      var c := b.charges[i];
      var charges := b.charges[i := Settled(c, s)];
      if s.amount.None? || c.key !in b.accounts then Book(b.accounts, charges)
      else
        var a := b.accounts[c.key];
        Book(b.accounts[c.key := Account(a.spent + s.amount.value, a.reserved - c.reserved)], charges)
  }

  // ---- the repository as the source has it: rows updated in place ----

  class CostRepository {
    var accounts: map<Key, Account>
    var charges: seq<Charge>

    ghost function Value(): Book reads this { Book(accounts, charges) }

    constructor ()
      ensures Value() == EMPTY
    {
      accounts, charges := map[], [];
    }

    /** A missing account row is inserted first; the guarded update then either moves
        the hold or matches no row, which rolls the transaction back. */
    method Reserve(c: Charge, limit: Option<int>) returns (ok: bool)
      modifies this
      ensures ok <==> CanReserve(old(Value()), c, limit)
      ensures Value() == ReserveIn(old(Value()), c, limit)
    {
      var saved := accounts;
      if c.key !in accounts {
        accounts := accounts[c.key := Account(0, 0)];
      }
      var a := accounts[c.key];
      if limit.Some? && a.spent + a.reserved + c.reserved > limit.value {
        accounts := saved;
        return false;
      }
      accounts := accounts[c.key := Account(a.spent, a.reserved + c.reserved)];
      var taken := HasRow(c.id);
      if taken {
        accounts := saved;
        return false;
      }
      charges := charges + [c];
      ok := true;
    }

    /** The primary-key check on insertion. */
    method HasRow(id: string) returns (yes: bool)
      ensures yes <==> Known(charges, id)
    {
      for i := 0 to |charges|
        invariant !Known(charges[..i], id)
      {
        if charges[i].id == id {
          return true;
        }
      }
      assert charges[..|charges|] == charges;
      yes := false;
    }

    /** Claims the reserved row, then moves the money only when an amount is known. */
    method Settle(id: string, tenant: string, s: Settlement) returns (changed: bool)
      modifies this
      ensures changed <==> Claim(old(charges), id, tenant) < |old(charges)|
      ensures Value() == SettleIn(old(Value()), id, tenant, s)
    {
      var i := FindClaim(id, tenant);
      if i == |charges| {
        return false;
      }
      var c := charges[i];
      charges := charges[i := Settled(c, s)];
      if s.amount.Some? && c.key in accounts {
        var a := accounts[c.key];
        accounts := accounts[c.key := Account(a.spent + s.amount.value, a.reserved - c.reserved)];
      }
      changed := true;
    }

    method FindClaim(id: string, tenant: string) returns (i: nat)
      ensures i == Claim(charges, id, tenant)
    {
      i := 0;
      while i < |charges| && !Claimable(charges[i], id, tenant)
        invariant i <= |charges|
        invariant i + Claim(charges[i..], id, tenant) == Claim(charges, id, tenant)
      {
        assert charges[i..][1..] == charges[i + 1..];
        i := i + 1;
      }
    }
  }

  // ---- sums over charges ----

  function Total(cs: seq<Charge>, f: Charge -> int): int
  {
    if cs == [] then 0 else Total(cs[..|cs| - 1], f) + f(cs[|cs| - 1])
  }

  lemma TotalAppend(cs: seq<Charge>, c: Charge, f: Charge -> int)
    ensures Total(cs + [c], f) == Total(cs, f) + f(c)
  {
    assert (cs + [c])[..|cs|] == cs;
  }

  lemma {:induction false} TotalUpdate(cs: seq<Charge>, i: nat, c: Charge, f: Charge -> int)
    requires i < |cs|
    ensures Total(cs[i := c], f) == Total(cs, f) - f(cs[i]) + f(c)
    decreases |cs|
  {
    var init := cs[..|cs| - 1];
    if i < |init| {
      assert cs[i := c][..|cs| - 1] == init[i := c];
      TotalUpdate(init, i, c, f);
    } else {
      assert cs[i := c][..|cs| - 1] == init;
    }
  }

  lemma {:induction false} TotalNonNegative(cs: seq<Charge>, f: Charge -> int)
    requires forall c :: f(c) >= 0
    ensures Total(cs, f) >= 0
  {
    if cs != [] {
      TotalNonNegative(cs[..|cs| - 1], f);
    }
  }

  /** The hold of a charge with no amount yet. */
  function HoldIn(key: Key): Charge -> int
  {
    (c: Charge) => if c.key == key && c.amount.None? then c.reserved else 0
  }

  function AmountIn(key: Key): Charge -> int
  {
    (c: Charge) => if c.key == key && c.amount.Some? then c.amount.value else 0
  }

  /** How far a settled charge went over its own reservation. */
  function OverrunIn(key: Key): Charge -> int
  {
    (c: Charge) => if c.key == key && c.amount.Some? && c.amount.value > c.reserved
                   then c.amount.value - c.reserved else 0
  }

  // ---- runs ----

  datatype Op =
    | DoReserve(charge: Charge, limit: Option<int>)
    | DoSettle(id: string, tenant: string, settlement: Settlement)

  function Do(b: Book, op: Op): Book
  {
    match op
    case DoReserve(c, limit) => ReserveIn(b, c, limit)
    case DoSettle(id, tenant, s) => SettleIn(b, id, tenant, s)
  }

  function Run(b: Book, ops: seq<Op>): Book
  {
    if ops == [] then b else Do(Run(b, ops[..|ops| - 1]), ops[|ops| - 1])
  }

  /** New charges start reserved and without an amount; settlements leave `reserved`. */
  predicate WellFormed(op: Op)
  {
    match op
    case DoReserve(c, _) => c.status == Reserved && c.amount.None?
    case DoSettle(_, _, s) => s.status != Reserved
  }

  predicate AllWellFormed(ops: seq<Op>) { forall i :: 0 <= i < |ops| ==> WellFormed(ops[i]) }

  /** An account agrees with the charges it summarises. */
  predicate Agrees(b: Book, key: Key)
  {
    Balance(b, key) == Account(Total(b.charges, AmountIn(key)), Total(b.charges, HoldIn(key)))
  }

  predicate HasAccount(b: Book, key: Key)
  {
    forall i :: 0 <= i < |b.charges| && b.charges[i].key == key ==> key in b.accounts
  }

  predicate Clean(cs: seq<Charge>)
  {
    forall i :: 0 <= i < |cs| && cs[i].status == Reserved ==> cs[i].amount.None?
  }

  predicate Good(b: Book, key: Key) { Agrees(b, key) && HasAccount(b, key) && Clean(b.charges) }

  lemma ReserveKeepsGood(b: Book, c: Charge, limit: Option<int>, key: Key)
    requires Good(b, key) && c.status == Reserved && c.amount.None?
    ensures Good(ReserveIn(b, c, limit), key)
  {
    TotalAppend(b.charges, c, AmountIn(key));
    TotalAppend(b.charges, c, HoldIn(key));
  }

  lemma SettleKeepsGood(b: Book, id: string, tenant: string, s: Settlement, key: Key)
    requires Good(b, key) && s.status != Reserved
    ensures Good(SettleIn(b, id, tenant, s), key)
  {
    var i := Claim(b.charges, id, tenant);
    if i < |b.charges| {
      var c := b.charges[i];
      TotalUpdate(b.charges, i, Settled(c, s), AmountIn(key));
      TotalUpdate(b.charges, i, Settled(c, s), HoldIn(key));
    }
  }

  lemma {:induction false} RunKeepsGood(ops: seq<Op>, key: Key)
    requires AllWellFormed(ops)
    ensures Good(Run(EMPTY, ops), key)
    decreases |ops|
  {
    if ops != [] {
      var init := ops[..|ops| - 1];
      RunKeepsGood(init, key);
      match ops[|ops| - 1]
      case DoReserve(c, limit) => ReserveKeepsGood(Run(EMPTY, init), c, limit, key);
      case DoSettle(id, tenant, s) => SettleKeepsGood(Run(EMPTY, init), id, tenant, s, key);
    }
  }

  /** After any interleaving, every account's `reserved` is the sum of the holds of its
      charges without an amount, its `spent` the sum of their amounts, and neither is
      negative. */
  lemma AccountsMatchCharges(ops: seq<Op>, key: Key)
    requires AllWellFormed(ops)
    ensures var b := Run(EMPTY, ops);
            && Balance(b, key).reserved == Total(b.charges, HoldIn(key)) >= 0
            && Balance(b, key).spent == Total(b.charges, AmountIn(key)) >= 0
  {
    RunKeepsGood(ops, key);
    TotalNonNegative(Run(EMPTY, ops).charges, HoldIn(key));
    TotalNonNegative(Run(EMPTY, ops).charges, AmountIn(key));
  }

  // ---- a charge settles once ----

  predicate SameRows(b: Book, b': Book)
  {
    |b.charges| <= |b'.charges|
    && forall i :: 0 <= i < |b.charges| && b.charges[i].status != Reserved ==> b'.charges[i] == b.charges[i]
  }

  lemma {:induction false} SettledIsFinal(b: Book, ops: seq<Op>)
    requires AllWellFormed(ops)
    ensures SameRows(b, Run(b, ops))
    decreases |ops|
  {
    if ops != [] {
      SettledIsFinal(b, ops[..|ops| - 1]);
    }
  }

  predicate UniqueIds(cs: seq<Charge>)
  {
    forall i, j :: 0 <= i < j < |cs| ==> cs[i].id != cs[j].id
  }

  lemma {:induction false} IdsStayUnique(b: Book, ops: seq<Op>)
    requires UniqueIds(b.charges)
    ensures UniqueIds(Run(b, ops).charges)
    decreases |ops|
  {
    if ops != [] {
      IdsStayUnique(b, ops[..|ops| - 1]);
    }
  }

  /** A settlement that has once gone through makes every later one of the same call
      move nothing, however many other transactions come in between. */
  lemma DuplicateSettlementMovesNothing(
      b: Book, id: string, tenant: string, first: Settlement, between: seq<Op>, again: Settlement)
    requires UniqueIds(b.charges) && first.status != Reserved && AllWellFormed(between)
    requires Claim(b.charges, id, tenant) < |b.charges|
    ensures var later := Run(SettleIn(b, id, tenant, first), between);
            SettleIn(later, id, tenant, again) == later
  {
    var i := Claim(b.charges, id, tenant);
    var b1 := SettleIn(b, id, tenant, first);
    SettledIsFinal(b1, between);
    var later := Run(b1, between);
    IdsStayUnique(b1, between);
    assert later.charges[i] == Settled(b.charges[i], first);
    var j := Claim(later.charges, id, tenant);
    assert j == i || j == |later.charges|;
  }

  // ---- the budget ----

  predicate UsesLimit(op: Op, key: Key, limit: int)
  {
    op.DoReserve? && op.charge.key == key ==> op.limit == Some(limit)
  }

  predicate AllUseLimit(ops: seq<Op>, key: Key, limit: int)
  {
    forall i :: 0 <= i < |ops| ==> UsesLimit(ops[i], key, limit)
  }

  function Committed(b: Book, key: Key): int { Balance(b, key).spent + Balance(b, key).reserved }

  lemma SettleOverrun(b: Book, id: string, tenant: string, s: Settlement, key: Key, limit: int)
    requires Good(b, key) && s.status != Reserved
    requires Committed(b, key) <= limit + Total(b.charges, OverrunIn(key))
    ensures var b' := SettleIn(b, id, tenant, s);
            Committed(b', key) <= limit + Total(b'.charges, OverrunIn(key))
  {
    var i := Claim(b.charges, id, tenant);
    if i < |b.charges| {
      TotalUpdate(b.charges, i, Settled(b.charges[i], s), OverrunIn(key));
    }
  }

  /** With one limit throughout, an account never exceeds it by more than its settled
      calls exceeded their own reservations. */
  lemma {:induction false} BudgetHoldsUpToOverruns(ops: seq<Op>, key: Key, limit: nat)
    requires AllWellFormed(ops) && AllUseLimit(ops, key, limit)
    ensures var b := Run(EMPTY, ops);
            Committed(b, key) <= limit + Total(b.charges, OverrunIn(key))
    decreases |ops|
  {
    if ops != [] {
      var init := ops[..|ops| - 1];
      var b := Run(EMPTY, init);
      BudgetHoldsUpToOverruns(init, key, limit);
      RunKeepsGood(init, key);
      match ops[|ops| - 1]
      case DoReserve(c, lim) =>
        TotalAppend(b.charges, c, OverrunIn(key));
        TotalNonNegative(b.charges, OverrunIn(key));
        assert UsesLimit(ops[|ops| - 1], key, limit);
      case DoSettle(id, tenant, s) => SettleOverrun(b, id, tenant, s, key, limit);
    }
  }

  /** When no settled charge exceeds its reservation the limit itself holds. */
  lemma {:induction false} NoOverrun(cs: seq<Charge>, key: Key)
    requires forall i :: 0 <= i < |cs| && cs[i].amount.Some? ==> cs[i].amount.value <= cs[i].reserved
    ensures Total(cs, OverrunIn(key)) == 0
  {
    if cs != [] {
      NoOverrun(cs[..|cs| - 1], key);
    }
  }

  /** The overrun is real: one call alone takes its account to exactly what it cost, so
      the limit holds afterwards exactly when the cost is within it. */
  lemma OneCallCostsItsAmount(c: Charge, limit: nat, s: Settlement)
    requires WellFormed(DoReserve(c, Some(limit))) && c.reserved <= limit
    requires s.status != Reserved && s.amount.Some?
    ensures Committed(Run(EMPTY, [DoReserve(c, Some(limit)), DoSettle(c.id, c.key.tenant, s)]), c.key) == s.amount.value
  {
    var ops := [DoReserve(c, Some(limit)), DoSettle(c.id, c.key.tenant, s)];
    var first := [ops[0]];
    assert ops[..1] == first && first[..0] == [];
    assert Run(EMPTY, first) == Do(Run(EMPTY, []), ops[0]);
    var b := ReserveIn(EMPTY, c, Some(limit));
    assert CanReserve(EMPTY, c, Some(limit));
    assert b.charges == [c] && Claim(b.charges, c.id, c.key.tenant) == 0;
  }

  // ---- exactly when the limit holds throughout ----

  /** A settlement that fits: its overrun is at most the headroom it finds. */
  predicate SettlementFits(b: Book, op: Op, key: Key, limit: int)
  {
    op.DoSettle? && op.settlement.amount.Some? && Claim(b.charges, op.id, op.tenant) < |b.charges|
    && b.charges[Claim(b.charges, op.id, op.tenant)].key == key ==>
      op.settlement.amount.value - b.charges[Claim(b.charges, op.id, op.tenant)].reserved <= limit - Committed(b, key)
  }

  predicate AllSettlementsFit(ops: seq<Op>, key: Key, limit: int)
  {
    ops == [] || (AllSettlementsFit(ops[..|ops| - 1], key, limit)
                  && SettlementFits(Run(EMPTY, ops[..|ops| - 1]), ops[|ops| - 1], key, limit))
  }

  /** The limit holds after every transaction of the run. */
  predicate AlwaysWithin(ops: seq<Op>, key: Key, limit: int)
  {
    Committed(Run(EMPTY, ops), key) <= limit && (ops == [] || AlwaysWithin(ops[..|ops| - 1], key, limit))
  }

  lemma StepWithinExactly(b: Book, op: Op, key: Key, limit: int)
    requires Good(b, key) && Committed(b, key) <= limit && UsesLimit(op, key, limit) && WellFormed(op)
    ensures Committed(Do(b, op), key) <= limit <==> SettlementFits(b, op, key, limit)
  {
  }

  /** A run under one limit stays within it, at every point, if and only if each settlement
      overruns its reservation by no more than the headroom it finds. */
  lemma {:induction false} WithinExactlyWhenSettlementsFit(ops: seq<Op>, key: Key, limit: nat)
    requires AllWellFormed(ops) && AllUseLimit(ops, key, limit)
    ensures AlwaysWithin(ops, key, limit) <==> AllSettlementsFit(ops, key, limit)
    decreases |ops|
  {
    if ops != [] {
      var init, op := ops[..|ops| - 1], ops[|ops| - 1];
      WithinExactlyWhenSettlementsFit(init, key, limit);
      if AlwaysWithin(init, key, limit) {
        RunKeepsGood(init, key);
        assert UsesLimit(op, key, limit) && WellFormed(op);
        StepWithinExactly(Run(EMPTY, init), op, key, limit);
      }
    }
  }

  // ---- what each transaction does, in plain terms ----

  /** A reservation goes through exactly when its id is new and the account, with it, stays
      within the limit if there is one; then the row is added as given and its hold counted,
      and nothing else moves. Otherwise nothing changes. */
  lemma ReserveSays(b: Book, c: Charge, limit: Option<int>, key: Key)
    ensures var b' := ReserveIn(b, c, limit);
            var admitted := (forall i :: 0 <= i < |b.charges| ==> b.charges[i].id != c.id)
                            && (limit.Some? ==> Committed(b, c.key) + c.reserved <= limit.value);
            if admitted then
              && b'.charges == b.charges + [c]
              && Balance(b', key).spent == Balance(b, key).spent
              && Balance(b', key).reserved == Balance(b, key).reserved + if key == c.key then c.reserved else 0
            else b' == b
  {
  }

  /** The row a settlement writes: its outcome, usage, tokens, amount and price version are the
      settlement's, and what the reservation wrote stays. */
  predicate Written(was: Charge, s: Settlement, c: Charge)
  {
    && c.status == s.status && c.tokens == s.tokens && c.amount == s.amount && c.priceVersion == s.priceVersion
    && c.usageKnown == (s.tokens.Some? && s.usageKnown)
    && c.id == was.id && c.key == was.key && c.createdAt == was.createdAt && c.reserved == was.reserved
    && c.provider == was.provider && c.model == was.model && c.operation == was.operation
  }

  /** A settlement writes the one reserved row of its call, if there is one, and no other; the
      account trades the hold for the amount exactly when there is an amount. */
  lemma SettleSays(b: Book, id: string, tenant: string, s: Settlement, i: nat, key: Key)
    requires UniqueIds(b.charges) && i < |b.charges| && b.charges[i].id == id && b.charges[i].key in b.accounts
    ensures var b', c := SettleIn(b, id, tenant, s), b.charges[i];
            if c.key.tenant == tenant && c.status == Reserved then
              && |b'.charges| == |b.charges| && Written(c, s, b'.charges[i])
              && (forall j :: 0 <= j < |b.charges| && j != i ==> b'.charges[j] == b.charges[j])
              && Balance(b', key).spent
                 == Balance(b, key).spent + (if key == c.key && s.amount.Some? then s.amount.value else 0)
              && Balance(b', key).reserved
                 == Balance(b, key).reserved - (if key == c.key && s.amount.Some? then c.reserved else 0)
            else b' == b
  {
    var j := Claim(b.charges, id, tenant);
    assert j < |b.charges| ==> b.charges[j].id == b.charges[i].id;
    assert j < |b.charges| ==> j == i;
  }
}
