/** The streaming provider wrapper: one charge, settled exactly once whatever ends the
    stream. */
module AccountingStream {
  import opened Text
  import opened Ledger
  import opened Accounting
  import opened AccountingRows

  /** What unwinds a generator: closing or cancelling it, or any other exception. */
  datatype Exn = Cancel | Error

  /** One settlement attempt: the transactions of other calls that commit first, whether
      this one commits, and what the waiting code sees. A commit can go through and still
      be reported as an exception; a failed one is always reported. */
  datatype Attempt = Attempt(others: seq<Op>, applied: bool, raised: Option<Exn>)

  /** The next thing the provider's stream does: it breaks, or it delivers a chunk, the
      final ones with metadata, after which the consumer resumes or unwinds. */
  datatype Event =
    | Breaks(exn: Exn)
    | Chunk(final: Option<Metadata>, attempt: Attempt, resume: Option<Exn>)

  predicate AttemptOk(a: Attempt, id: string)
  {
    && (a.applied || a.raised.Some?)
    && AllWellFormed(a.others)
    && forall i :: 0 <= i < |a.others| && a.others[i].DoSettle? ==> a.others[i].id != id
  }

  predicate EventsOk(es: seq<Event>, id: string)
  {
    forall i :: 0 <= i < |es| && es[i].Chunk? ==> AttemptOk(es[i].attempt, id)
  }

  /** The settlement of the first final chunk, if that attempt committed. */
  function WentThrough(sv: Service, t: Ticket, es: seq<Event>): Option<Settlement>
  {
    if es == [] || es[0].Breaks? then None
    else
      match es[0].final
      case Some(m) =>
        if SettlementFor(sv, t, m).Ok? && es[0].attempt.applied
        then Some(SettlementFor(sv, t, m).value) else None
      case None =>
        if es[0].resume.Some? then None else WentThrough(sv, t, es[1..])
  }

  /** How the loop ends as long as no attempt has succeeded. */
  function Ending(sv: Service, t: Ticket, es: seq<Event>): Option<Exn>
  {
    if es == [] then None
    else if es[0].Breaks? then Some(es[0].exn)
    else
      match es[0].final
      case Some(m) => if SettlementFor(sv, t, m).Ok? then es[0].attempt.raised else Some(Error)
      case None => if es[0].resume.Some? then es[0].resume else Ending(sv, t, es[1..])
  }

  function FallbackStatus(sv: Service, t: Ticket, es: seq<Event>): Status
  {
    if Ending(sv, t, es) == Some(Error) then Failed else Incomplete
  }

  /** The row this call left behind, after everything. */
  function FinalRow(sv: Service, t: Ticket, c: Charge, es: seq<Event>, last: Attempt): Charge
  {
    match WentThrough(sv, t, es)
    case Some(s) => Settled(c, s)
    case None => if last.applied then Settled(c, UnknownSettlement(sv, t, FallbackStatus(sv, t, es))) else c
  }

  /** Row `i` belongs to the call: claimable or already settled, and nobody else's. */
  predicate Owns(b: Book, i: nat, id: string, tenant: string)
  {
    && i < |b.charges| && b.charges[i].id == id && b.charges[i].key.tenant == tenant
    && UniqueIds(b.charges)
  }

  lemma OwnClaim(b: Book, i: nat, id: string, tenant: string)
    requires Owns(b, i, id, tenant)
    ensures Claim(b.charges, id, tenant) == if b.charges[i].status == Reserved then i else |b.charges|
  {
    var j := Claim(b.charges, id, tenant);
    assert j < |b.charges| ==> b.charges[j].id == b.charges[i].id;
  }

  /** Other calls' transactions leave the row alone. */
  lemma {:induction false} OthersKeepRow(b: Book, ops: seq<Op>, i: nat, id: string, tenant: string)
    requires Owns(b, i, id, tenant) && AllWellFormed(ops)
    requires forall k :: 0 <= k < |ops| && ops[k].DoSettle? ==> ops[k].id != id
    ensures Owns(Run(b, ops), i, id, tenant) && Run(b, ops).charges[i] == b.charges[i]
    decreases |ops|
  {
    if ops != [] {
      OthersKeepRow(b, ops[..|ops| - 1], i, id, tenant);
      IdsStayUnique(b, ops);
    }
  }

  lemma {:induction false} RunAppend(b: Book, xs: seq<Op>, ys: seq<Op>)
    ensures Run(b, xs + ys) == Run(Run(b, xs), ys)
    decreases |ys|
  {
    if ys == [] {
      assert xs + ys == xs;
    } else {
      assert (xs + ys)[..|xs + ys| - 1] == xs + ys[..|ys| - 1];
      RunAppend(b, xs, ys[..|ys| - 1]);
    }
  }

  /** `_finish`: sends one settlement; `changed` says whether it claimed the row. */
  method Send(b: Book, id: string, tenant: string, s: Settlement, a: Attempt, i: nat)
    returns (b': Book, changed: bool, ghost ops: seq<Op>)
    requires Owns(b, i, id, tenant) && AttemptOk(a, id) && s.status != Reserved
    ensures b' == Run(b, ops) && AllWellFormed(ops)
    ensures Owns(b', i, id, tenant)
    ensures changed <==> a.applied && b.charges[i].status == Reserved
    ensures b'.charges[i] == if changed then Settled(b.charges[i], s) else b.charges[i]
  {
    OthersKeepRow(b, a.others, i, id, tenant);
    b' := Run(b, a.others);
    ops := a.others;
    changed := false;
    if a.applied {
      OwnClaim(b', i, id, tenant);
      changed := Claim(b'.charges, id, tenant) < |b'.charges|;
      b' := SettleIn(b', id, tenant, s);
      RunAppend(b, a.others, [DoSettle(id, tenant, s)]);
      ops := a.others + [DoSettle(id, tenant, s)];
    }
  }

  /** `AccountingLLMProvider.stream` after `begin`: whatever the chunks are and wherever
      the stream stops, the charge leaves `reserved` at most once, and exactly once when
      the last attempt can commit: with the first final chunk's usage if that settlement
      went through, otherwise as unknown usage. */
  method Stream(sv: Service, t: Ticket, b: Book, i: nat, es: seq<Event>, last: Attempt)
    returns (b': Book, claims: nat, ghost ops: seq<Op>)
    requires Owns(b, i, t.id, t.request.who.tenant) && b.charges[i].status == Reserved
    requires EventsOk(es, t.id) && AttemptOk(last, t.id)
    ensures b' == Run(b, ops) && AllWellFormed(ops)
    ensures i < |b'.charges| && b'.charges[i] == FinalRow(sv, t, b.charges[i], es, last)
    ensures claims == if WentThrough(sv, t, es).Some? || last.applied then 1 else 0
    ensures claims == 1 <==> b'.charges[i].status != Reserved
  {
    var tenant := t.request.who.tenant;
    ghost var c := b.charges[i];
    var settled, failed, k, stop := false, false, 0, false;
    b', claims, ops := b, 0, [];
    while k < |es| && !stop
      invariant k <= |es|
      invariant b' == Run(b, ops) && AllWellFormed(ops)
      invariant Owns(b', i, t.id, tenant)
      invariant claims == if b'.charges[i] == c then 0 else 1
      invariant claims == 0
                || (WentThrough(sv, t, es).Some? && b'.charges[i] == Settled(c, WentThrough(sv, t, es).value))
      invariant claims == 1 ==> b'.charges[i].status != Reserved
      invariant settled ==> claims == 1
      invariant stop || settled || (claims == 0 && !failed && WentThrough(sv, t, es) == WentThrough(sv, t, es[k..])
                                    && Ending(sv, t, es) == Ending(sv, t, es[k..]))
      invariant stop && claims == 0 ==>
        WentThrough(sv, t, es).None? && failed == (Ending(sv, t, es) == Some(Error))
    {
      var e := es[k];
      assert es[k..][1..] == es[k + 1..];
      match e {
        case Breaks(exn) =>
          stop, failed := true, exn == Error;
        case Chunk(final, attempt, resume) =>
          if final.Some? && !settled {
            match SettlementFor(sv, t, final.value) {
              case Err(_) =>
                stop, failed := true, true;
              case Ok(s) =>
                var changed;
                ghost var more;
                b', changed, more := Send(b', t.id, tenant, s, attempt, i);
                RunAppend(b, ops, more);
                ops := ops + more;
                claims := claims + if changed then 1 else 0;
                if attempt.raised.Some? {
                  stop, failed := true, attempt.raised.value == Error;
                } else {
                  settled := true;
                }
            }
          }
          if !stop && resume.Some? {
            stop, failed := true, resume.value == Error;
          }
      }
      k := k + 1;
    }
    if !settled {
      var changed;
      ghost var more;
      var unknown := UnknownSettlement(sv, t, if failed then Failed else Incomplete);
      b', changed, more := Send(b', t.id, tenant, unknown, last, i);
      RunAppend(b, ops, more);
      ops := ops + more;
      claims := claims + if changed then 1 else 0;
    }
  }

  /** On the unknown-usage path the hold is kept: no account moves, and the charge goes on
      counting as the hold it was. */
  lemma UnknownKeepsHold(sv: Service, t: Ticket, b: Book, status: Status, key: Key)
    requires status != Reserved
    ensures var s := UnknownSettlement(sv, t, status);
            var b' := SettleIn(b, t.id, t.request.who.tenant, s);
            var i := Claim(b.charges, t.id, t.request.who.tenant);
            && Balance(b', key) == Balance(b, key)
            && (i < |b.charges| && b.charges[i].amount.None? ==>
                  && Total(b'.charges, HoldIn(key)) == Total(b.charges, HoldIn(key))
                  && Total(b'.charges, AmountIn(key)) == Total(b.charges, AmountIn(key))
                  && !b'.charges[i].usageKnown)
  {
    var i := Claim(b.charges, t.id, t.request.who.tenant);
    if i < |b.charges| {
      var c := Settled(b.charges[i], UnknownSettlement(sv, t, status));
      TotalUpdate(b.charges, i, c, HoldIn(key));
      TotalUpdate(b.charges, i, c, AmountIn(key));
    }
  }

  // ---- what the row says, stop point by stop point ----

  /** Chunks without metadata, each taken by a consumer that came back for more. */
  predicate Uneventful(es: seq<Event>) { forall e :: e in es ==> e.Chunk? && e.final.None? && e.resume.None? }

  lemma {:induction false} UneventfulIsSkipped(sv: Service, t: Ticket, pre: seq<Event>, es: seq<Event>)
    requires Uneventful(pre)
    ensures WentThrough(sv, t, pre + es) == WentThrough(sv, t, es) && Ending(sv, t, pre + es) == Ending(sv, t, es)
    decreases |pre|
  {
    hide SettlementFor;
    if pre == [] {
      assert pre + es == es;
    } else {
      assert pre[0] in pre && (pre + es)[0] == pre[0] && (pre + es)[1..] == pre[1..] + es;
      assert forall e :: e in pre[1..] ==> e in pre;
      UneventfulIsSkipped(sv, t, pre[1..], es);
    }
  }

  /** The first final chunk's settlement went through: the row says what its metadata says,
      whatever follows and however that attempt was reported. */
  lemma FirstFinalDecides(
      sv: Service, t: Ticket, c: Charge, pre: seq<Event>, m: Metadata, a: Attempt, resume: Option<Exn>,
      post: seq<Event>, last: Attempt)
    requires Uneventful(pre) && m.who == t.request.who && a.applied
    ensures SaysMetadata(sv, t, m, FinalRow(sv, t, c, pre + ([Chunk(Some(m), a, resume)] + post), last))
  {
    hide SaysMetadata;
    UneventfulIsSkipped(sv, t, pre, [Chunk(Some(m), a, resume)] + post);
    MetadataLaw(sv, t, m, c);
  }

  /** The ways a stream ends with nothing settled: it runs out, it breaks, the consumer does
      not come back, or the first final chunk cannot be settled. `failed` says whether an
      exception other than closing or cancelling ended it. */
  predicate EndsUnsettled(sv: Service, t: Ticket, es: seq<Event>, failed: bool)
  {
    || (es == [] && !failed)
    || (es != [] && es[0].Breaks? && failed == (es[0].exn == Error))
    || (es != [] && es[0].Chunk? && es[0].final.None? && es[0].resume.Some? && failed == (es[0].resume.value == Error))
    || (es != [] && es[0].Chunk? && es[0].final.Some? && es[0].final.value.who != t.request.who && failed)
    || (&& es != [] && es[0].Chunk? && es[0].final.Some? && es[0].final.value.who == t.request.who
        && !es[0].attempt.applied && es[0].attempt.raised.Some? && failed == (es[0].attempt.raised.value == Error))
  }

  /** Then the row says that nothing is known of the call, as failed exactly when an exception
      ended the stream, or else as incomplete; and it stays reserved only if even that
      settlement cannot commit. */
  lemma UnsettledStreamSays(
      sv: Service, t: Ticket, c: Charge, pre: seq<Event>, es: seq<Event>, failed: bool, last: Attempt)
    requires Uneventful(pre) && EndsUnsettled(sv, t, es, failed)
    ensures last.applied ==> SaysUnknown(failed, FinalRow(sv, t, c, pre + es, last))
    ensures !last.applied ==> FinalRow(sv, t, c, pre + es, last) == c
  {
    UneventfulIsSkipped(sv, t, pre, es);
  }
}
