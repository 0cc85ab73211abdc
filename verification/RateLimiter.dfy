/** The sliding-window tool rate limiter. */
module RateLimiter {

  datatype Limit = Limit(maxCalls: nat, window: real)

  predicate ValidLimit(l: Limit) { l.maxCalls > 0 && l.window > 0.0 }

  datatype Decision = Decision(allowed: bool, remaining: nat, resetAfter: real)

  datatype Key = Key(tenant: string, user: string, tool: string)

  /** The timestamps later than `lo`, in order. */
  function Recent(ts: seq<real>, lo: real): (r: seq<real>)
    ensures |r| <= |ts|
  {
    if ts == [] then []
    else
      var init := Recent(ts[..|ts| - 1], lo);
      if ts[|ts| - 1] > lo then init + [ts[|ts| - 1]] else init
  }

  lemma RecentAppend(ts: seq<real>, t: real, lo: real)
    ensures Recent(ts + [t], lo) == if t > lo then Recent(ts, lo) + [t] else Recent(ts, lo)
  {
    assert (ts + [t])[..|ts|] == ts;
  }

  lemma {:induction false} RecentMembers(ts: seq<real>, lo: real)
    ensures forall t :: t in Recent(ts, lo) <==> t in ts && t > lo
  {
    if ts != [] {
      var init := ts[..|ts| - 1];
      RecentMembers(init, lo);
      assert ts == init + [ts[|ts| - 1]];
    }
  }

  lemma {:induction false} RecentTwice(ts: seq<real>, a: real, b: real)
    requires a <= b
    ensures Recent(Recent(ts, a), b) == Recent(ts, b)
  {
    if ts != [] {
      var init, t := ts[..|ts| - 1], ts[|ts| - 1];
      RecentTwice(init, a, b);
      if t > a {
        RecentAppend(Recent(init, a), t, b);
      }
    }
  }

  lemma {:induction false} RecentShrinks(ts: seq<real>, a: real, b: real)
    requires a <= b
    ensures |Recent(ts, b)| <= |Recent(ts, a)|
    ensures (exists t :: t in ts && a < t <= b) ==> |Recent(ts, b)| < |Recent(ts, a)|
  {
    if ts != [] {
      var init := ts[..|ts| - 1];
      RecentShrinks(init, a, b);
      assert ts == init + [ts[|ts| - 1]];
    }
  }

  function Push(ts: seq<real>, granted: bool, t: real): seq<real> { if granted then ts + [t] else ts }

  /** Cutting after a push is pushing after a cut. */
  lemma PushThenCut(ts: seq<real>, granted: bool, t: real, lo: real)
    ensures Recent(Push(ts, granted, t), lo) == Push(Recent(ts, lo), granted && t > lo, t)
  {
    RecentAppend(ts, t, lo);
  }

  predicate IsLeast(m: real, ts: seq<real>) { m in ts && forall t :: t in ts ==> m <= t }

  /** Whether a call at `now` is granted, given the stored timestamps. */
  predicate Granted(stored: seq<real>, l: Limit, now: real)
  {
    |Recent(stored, now - l.window)| < l.maxCalls
  }

  function Stored(stored: seq<real>, l: Limit, now: real): seq<real>
  {
    Push(Recent(stored, now - l.window), Granted(stored, l, now), now)
  }

  class InMemoryToolRateLimiter {
    var calls: map<Key, seq<real>>

    ghost function For(key: Key): seq<real> reads this { if key in calls then calls[key] else [] }

    constructor ()
      ensures calls == map[]
    {
      calls := map[];
    }

    /** Grants while fewer than the maximum fall in the window ending now; a denial says
        how long until the oldest of them leaves it. */
    method Acquire(key: Key, l: Limit, now: real) returns (d: Decision)
      requires ValidLimit(l)
      modifies this
      ensures d.allowed <==> Granted(old(For(key)), l, now)
      ensures calls == old(calls)[key := Stored(old(For(key)), l, now)]
      ensures d.allowed ==> d.remaining == l.maxCalls - |For(key)| && d.resetAfter == l.window
      ensures !d.allowed ==> d.remaining == 0
      ensures !d.allowed ==>
                exists oldest :: IsLeast(oldest, For(key)) && d.resetAfter == oldest + l.window - now > 0.0
    {
      var known := if key in calls then calls[key] else [];
      var kept := Prune(known, now - l.window);
      calls := calls[key := kept];
      if |kept| >= l.maxCalls {
        var oldest := Least(kept);
        RecentMembers(known, now - l.window);
        var wait := oldest + l.window - now;
        assert IsLeast(oldest, For(key)) && wait > 0.0;
        return Decision(false, 0, if wait > 0.0 then wait else 0.0);
      }
      calls := calls[key := kept + [now]];
      assert calls == old(calls)[key := Stored(known, l, now)];
      d := Decision(true, l.maxCalls - |kept| - 1, l.window);
    }

    static method Prune(ts: seq<real>, lo: real) returns (kept: seq<real>)
      ensures kept == Recent(ts, lo)
    {
      kept := [];
      for i := 0 to |ts|
        invariant kept == Recent(ts[..i], lo)
      {
        assert ts[..i + 1] == ts[..i] + [ts[i]];
        RecentAppend(ts[..i], ts[i], lo);
        if ts[i] > lo {
          kept := kept + [ts[i]];
        }
      }
      assert ts[..|ts|] == ts;
    }

    static method Least(ts: seq<real>) returns (m: real)
      requires ts != []
      ensures IsLeast(m, ts)
    {
      m := ts[0];
      for i := 1 to |ts|
        invariant IsLeast(m, ts[..i])
      {
        assert ts[..i + 1] == ts[..i] + [ts[i]];
        if ts[i] < m {
          m := ts[i];
        }
      }
      assert ts[..|ts|] == ts;
    }
  }

  // ---- whole histories under one limit ----

  /** The call times of one key, never going back, up to `end`. */
  predicate Ordered(times: seq<real>, end: real)
  {
    times == [] || (times[|times| - 1] <= end && Ordered(times[..|times| - 1], times[|times| - 1]))
  }

  function StoredAfter(times: seq<real>, l: Limit): seq<real>
  {
    if times == [] then [] else Stored(StoredAfter(times[..|times| - 1], l), l, times[|times| - 1])
  }

  /** Every call ever granted. */
  function Grants(times: seq<real>, l: Limit): seq<real>
  {
    if times == [] then []
    else
      var init, now := times[..|times| - 1], times[|times| - 1];
      Push(Grants(init, l), Granted(StoredAfter(init, l), l, now), now)
  }

  /** One call keeps what is stored and the whole history equal within a later window. */
  lemma StoredStep(before: seq<real>, past: seq<real>, l: Limit, t: real, lo: real)
    requires Recent(before, lo) == Recent(past, lo) && t - l.window <= lo
    ensures Recent(Stored(before, l, t), lo) == Recent(Push(past, Granted(before, l, t), t), lo)
  {
    var granted, kept := Granted(before, l, t), Recent(before, t - l.window);
    assert Stored(before, l, t) == Push(kept, granted, t);
    assert Recent(kept, lo) == Recent(past, lo) by {
      RecentTwice(before, t - l.window, lo);
    }
    SamePush(kept, past, granted, t, lo);
  }

  lemma SamePush(a: seq<real>, b: seq<real>, granted: bool, t: real, lo: real)
    requires Recent(a, lo) == Recent(b, lo)
    ensures Recent(Push(a, granted, t), lo) == Recent(Push(b, granted, t), lo)
  {
    PushThenCut(a, granted, t, lo);
    PushThenCut(b, granted, t, lo);
  }

  /** Pruning forgets nothing that matters: at any later time the stored list, cut to the
      window, is the full history of grants cut to the window. */
  lemma {:induction false} StoredIsWindowOfHistory(times: seq<real>, l: Limit, now: real)
    requires ValidLimit(l) && Ordered(times, now)
    ensures Recent(StoredAfter(times, l), now - l.window) == Recent(Grants(times, l), now - l.window)
    decreases |times|
  {
    if times != [] {
      var init, t := times[..|times| - 1], times[|times| - 1];
      OrderedLater(init, t, now);
      StoredIsWindowOfHistory(init, l, now);
      StoredStep(StoredAfter(init, l), Grants(init, l), l, t, now - l.window);
    }
  }

  /** The stored list is, after every call, exactly the window of the full history that ends
      with that call. */
  lemma StoredIsExactlyTheWindow(times: seq<real>, l: Limit)
    requires ValidLimit(l) && times != [] && Ordered(times, times[|times| - 1])
    ensures StoredAfter(times, l) == Recent(Grants(times, l), times[|times| - 1] - l.window)
  {
    hide Recent, Granted;
    var init, t := times[..|times| - 1], times[|times| - 1];
    StoredIsWindowOfHistory(init, l, t);
    PushThenCut(Grants(init, l), Granted(StoredAfter(init, l), l, t), t, t - l.window);
  }

  lemma OrderedLater(times: seq<real>, end: real, later: real)
    requires Ordered(times, end) && end <= later
    ensures Ordered(times, later)
  {
  }

  lemma {:induction false} GrantsAreNotLater(times: seq<real>, l: Limit, end: real)
    requires Ordered(times, end)
    ensures forall g :: g in Grants(times, l) ==> g <= end
    decreases |times|
  {
    if times != [] {
      GrantsAreNotLater(times[..|times| - 1], l, times[|times| - 1]);
    }
  }

  /** Grants in the half-open interval (lo, hi]. */
  function Count(ts: seq<real>, lo: real, hi: real): (n: nat)
  {
    if ts == [] then 0
    else Count(ts[..|ts| - 1], lo, hi) + if lo < ts[|ts| - 1] <= hi then 1 else 0
  }

  lemma {:induction false} CountWithinRecent(ts: seq<real>, lo: real, hi: real)
    ensures Count(ts, lo, hi) <= |Recent(ts, lo)|
  {
    if ts != [] {
      CountWithinRecent(ts[..|ts| - 1], lo, hi);
    }
  }

  lemma CountAppend(ts: seq<real>, x: real, lo: real, hi: real)
    ensures Count(ts + [x], lo, hi) == Count(ts, lo, hi) + if lo < x <= hi then 1 else 0
  {
    assert (ts + [x])[..|ts|] == ts;
  }

  /** A grant at `now` finds room in every window that reaches past `now`. */
  lemma WindowBeforeGrant(times: seq<real>, l: Limit, now: real, t: real)
    requires ValidLimit(l) && Ordered(times, now) && Granted(StoredAfter(times, l), l, now) && now <= t
    ensures Count(Grants(times, l), t - l.window, t) < l.maxCalls
  {
    StoredIsWindowOfHistory(times, l, now);
    CountInLaterWindow(Grants(times, l), now - l.window, t - l.window, t);
  }

  lemma CountInLaterWindow(ts: seq<real>, a: real, b: real, hi: real)
    requires a <= b
    ensures Count(ts, b, hi) <= |Recent(ts, a)|
  {
    RecentShrinks(ts, a, b);
    CountWithinRecent(ts, b, hi);
  }

  /** No interval of the window's length, anywhere in time, ever holds more grants than
      the limit allows. */
  lemma {:induction false} NoWindowOverfull(times: seq<real>, l: Limit, end: real, t: real)
    requires ValidLimit(l) && Ordered(times, end)
    ensures Count(Grants(times, l), t - l.window, t) <= l.maxCalls
    decreases |times|
  {
    if times != [] {
      var init, now := times[..|times| - 1], times[|times| - 1];
      var before, past := StoredAfter(init, l), Grants(init, l);
      NoWindowOverfull(init, l, now, t);
      if Granted(before, l, now) {
        CountAppend(past, now, t - l.window, t);
        if t >= now {
          WindowBeforeGrant(init, l, now, t);
        }
      }
    }
  }

  lemma {:induction false} StoredIsBounded(times: seq<real>, l: Limit)
    requires ValidLimit(l)
    ensures |StoredAfter(times, l)| <= l.maxCalls
    decreases |times|
  {
    if times != [] {
      StoredIsBounded(times[..|times| - 1], l);
    }
  }

  /** Waiting frees a place exactly when the oldest timestamp has left the window. */
  lemma RoomAfterWaiting(kept: seq<real>, oldest: real, lo: real)
    requires IsLeast(oldest, kept)
    ensures |Recent(kept, lo)| < |kept| <==> oldest <= lo
  {
    forall i | 0 <= i < |kept| ensures oldest <= kept[i] {
      assert kept[i] in kept;
    }
    if oldest <= lo {
      KeepsAll(kept, oldest - 1.0);
      RecentShrinks(kept, oldest - 1.0, lo);
    } else {
      KeepsAll(kept, lo);
    }
  }

  /** A denied caller is granted after exactly the announced wait, and at no earlier
      time, as long as nobody else calls. */
  lemma ResetIsExact(times: seq<real>, l: Limit, now: real, oldest: real, t: real)
    requires ValidLimit(l) && !Granted(StoredAfter(times, l), l, now) && now <= t
    requires IsLeast(oldest, Recent(StoredAfter(times, l), now - l.window))
    ensures Granted(Stored(StoredAfter(times, l), l, now), l, t) <==> t >= now + (oldest + l.window - now)
  {
    StoredIsBounded(times, l);
    RoomAfterWaiting(Recent(StoredAfter(times, l), now - l.window), oldest, t - l.window);
  }

  lemma {:induction false} KeepsAll(ts: seq<real>, lo: real)
    requires forall i :: 0 <= i < |ts| ==> ts[i] > lo
    ensures Recent(ts, lo) == ts
    decreases |ts|
  {
    if ts != [] {
      var init := ts[..|ts| - 1];
      KeepsAll(init, lo);
      assert ts == init + [ts[|ts| - 1]];
    }
  }
}
