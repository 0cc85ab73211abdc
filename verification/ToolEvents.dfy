/** The tool events of a run: their identifiers and how they bracket. */
module ToolEvents {
  import opened Text

  datatype Kind = CallEvent | ResultEvent

  /** An emitted event, by the counters its identifier is made of. */
  datatype Event = Event(kind: Kind, step: nat, call: nat)

  /** `_tool_call_event_id` */
  function EventId(prefix: string, step: nat, call: nat): string
  {
    prefix + "-step-" + (Decimal(step) + "-" + ("tool-" + Decimal(call)))
  }

  /** Identifiers of one run agree only when both counters agree. */
  lemma EventIdInjective(prefix: string, s: nat, c: nat, s': nat, c': nat)
    ensures EventId(prefix, s, c) == EventId(prefix, s', c') <==> s == s' && c == c'
  {
    if EventId(prefix, s, c) == EventId(prefix, s', c') {
      var p := prefix + "-step-";
      var t, t' := Decimal(s) + "-" + ("tool-" + Decimal(c)), Decimal(s') + "-" + ("tool-" + Decimal(c'));
      assert (p + t)[|p|..] == t && (p + t')[|p|..] == t';
      DigitsBeforeSeparator(Decimal(s), Decimal(s'), '-', "tool-" + Decimal(c), "tool-" + Decimal(c'));
      assert ("tool-" + Decimal(c))[5..] == Decimal(c) && ("tool-" + Decimal(c'))[5..] == Decimal(c');
      assert Value(Decimal(s)) == Value(Decimal(s')) && Value(Decimal(c)) == Value(Decimal(c'));
    }
  }

  /** What one attempt emits: a call and its result; a call alone when the attempt was
      cut short; a result alone when it was refused before its call. */
  datatype Shape = Whole | CallOnly | ResultOnly

  datatype Attempt = Attempt(shape: Shape, step: nat, call: nat)

  function EventsOf(a: Attempt): seq<Event>
  {
    match a.shape
    case Whole => [Event(CallEvent, a.step, a.call), Event(ResultEvent, a.step, a.call)]
    case CallOnly => [Event(CallEvent, a.step, a.call)]
    case ResultOnly => [Event(ResultEvent, a.step, a.call)]
  }

  function Flatten(xs: seq<Attempt>): seq<Event>
  {
    if xs == [] then [] else Flatten(xs[..|xs| - 1]) + EventsOf(xs[|xs| - 1])
  }

  /** Complete attempts only, numbered by rising steps, the last at most `bound`. */
  predicate Complete(xs: seq<Attempt>, bound: nat)
  {
    xs == [] || (var a := xs[|xs| - 1];
                 a.shape == Whole && 0 < a.step <= bound && Complete(xs[..|xs| - 1], a.step - 1))
  }

  /** The same, except that the last attempt may be incomplete. */
  predicate Orderly(xs: seq<Attempt>, bound: nat)
  {
    xs == [] || (var a := xs[|xs| - 1]; 0 < a.step <= bound && Complete(xs[..|xs| - 1], a.step - 1))
  }

  /** The events of a run are well bracketed: they come from attempts of which only the
      last may be incomplete, and no two attempts share an identifier. */
  predicate Bracketed(prefix: string, es: seq<Event>, xs: seq<Attempt>)
  {
    && es == Flatten(xs)
    && (forall i :: 0 <= i < |xs| - 1 ==> xs[i].shape == Whole)
    && (forall i, j :: 0 <= i < j < |xs| ==>
          EventId(prefix, xs[i].step, xs[i].call) != EventId(prefix, xs[j].step, xs[j].call))
  }

  lemma {:induction false} CompleteMembers(xs: seq<Attempt>, bound: nat)
    requires Complete(xs, bound)
    ensures forall i :: 0 <= i < |xs| ==> xs[i].shape == Whole && xs[i].step <= bound
    ensures forall i, j :: 0 <= i < j < |xs| ==> xs[i].step < xs[j].step
    decreases |xs|
  {
    if xs != [] {
      var init, a := xs[..|xs| - 1], xs[|xs| - 1];
      CompleteMembers(init, a.step - 1);
      assert forall i :: 0 <= i < |init| ==> xs[i] == init[i];
    }
  }

  lemma OrderlyIsBracketed(prefix: string, xs: seq<Attempt>, bound: nat)
    requires Orderly(xs, bound)
    ensures Bracketed(prefix, Flatten(xs), xs)
  {
    if xs != [] {
      var init, a := xs[..|xs| - 1], xs[|xs| - 1];
      CompleteMembers(init, a.step - 1);
      assert forall i :: 0 <= i < |init| ==> xs[i] == init[i];
    }
    forall i, j | 0 <= i < j < |xs|
      ensures EventId(prefix, xs[i].step, xs[i].call) != EventId(prefix, xs[j].step, xs[j].call)
    {
      EventIdInjective(prefix, xs[i].step, xs[i].call, xs[j].step, xs[j].call);
    }
  }

  /** One more attempt, in a later step, after complete ones. */
  lemma OneMoreAttempt(xs: seq<Attempt>, a: Attempt)
    requires a.step > 0 && Complete(xs, a.step - 1)
    ensures Orderly(xs + [a], a.step) && Flatten(xs + [a]) == Flatten(xs) + EventsOf(a)
    ensures a.shape == Whole ==> Complete(xs + [a], a.step)
  {
    assert (xs + [a])[..|xs|] == xs;
  }

  /** The result that completes the last, lone call. */
  lemma CompleteAttempt(xs: seq<Attempt>, step: nat, call: nat)
    requires step > 0 && Complete(xs, step - 1)
    ensures var ys := xs + [Attempt(Whole, step, call)];
            && Flatten(ys) == Flatten(xs + [Attempt(CallOnly, step, call)]) + [Event(ResultEvent, step, call)]
            && Complete(ys, step)
  {
    OneMoreAttempt(xs, Attempt(CallOnly, step, call));
    OneMoreAttempt(xs, Attempt(Whole, step, call));
  }

  lemma CompleteIsOrderly(xs: seq<Attempt>, bound: nat, later: nat)
    requires Complete(xs, bound) && bound <= later
    ensures Complete(xs, later) && Orderly(xs, later)
  {
  }

  lemma FlattenAppend(xs: seq<Attempt>, a: Attempt)
    ensures Flatten(xs + [a]) == Flatten(xs) + EventsOf(a)
  {
    assert (xs + [a])[..|xs|] == xs;
  }

  /** The last attempt has its result. */
  function CompleteLast(xs: seq<Attempt>): seq<Attempt>
  {
    if xs == [] then [] else xs[..|xs| - 1] + [xs[|xs| - 1].(shape := Whole)]
  }

  lemma FlattenComplete(xs: seq<Attempt>, step: nat, call: nat)
    ensures Flatten(CompleteLast(xs + [Attempt(CallOnly, step, call)]))
            == Flatten(xs + [Attempt(CallOnly, step, call)]) + [Event(ResultEvent, step, call)]
  {
    var a := Attempt(CallOnly, step, call);
    assert (xs + [a])[..|xs|] == xs;
    FlattenAppend(xs, a);
    FlattenAppend(xs, a.(shape := Whole));
  }
}
