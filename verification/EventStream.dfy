/** The bounded event queue between a running agent and its streaming consumer, as an
    interleaving of producer and consumer steps. */
module EventStream {

  const CAPACITY := 64

  /** The codes a streamed run can end with. */
  datatype Code = StreamOverflow | RunCancelled | RunFailed | RunForbidden | StorageFailed

  datatype Kind = Started | ToolCall | ToolResult | Error(code: Code) | Final(response: string)

  predicate Terminal(k: Kind) { k.Error? || k.Final? }

  datatype Event = Event(kind: Kind, sequence: nat)

  datatype Sink = Sink(queue: seq<Event>, sequence: nat, closed: bool, overflowed: bool)

  /** `_put`: best effort, and loss is remembered. */
  function PutIn(s: Sink, k: Kind): Sink
  {
    if s.closed then s
    else if |s.queue| >= CAPACITY then s.(overflowed := true)
    else s.(queue := s.queue + [Event(k, s.sequence)], sequence := s.sequence + 1)
  }

  /** The terminal event of a finished run; loss is never reported as success. */
  function FinishKind(s: Sink, response: string): Kind
  {
    if s.overflowed then Error(StreamOverflow) else Final(response)
  }

  /** The awaited put of the terminal event, once the queue has room. */
  function EnqueueIn(s: Sink, e: Event): Sink { s.(queue := s.queue + [e], sequence := s.sequence + 1) }

  /** The consumer's get. */
  function DequeueFrom(s: Sink): Sink
    requires s.queue != []
  {
    s.(queue := s.queue[1..])
  }

  class AgentStreamSink {
    var queue: seq<Event>
    var sequence: nat
    var closed: bool
    var overflowed: bool

    ghost function Value(): Sink reads this { Sink(queue, sequence, closed, overflowed) }

    constructor ()
      ensures Value() == Sink([], 0, false, false)
    {
      queue, sequence, closed, overflowed := [], 0, false, false;
    }

    method Put(k: Kind)
      modifies this
      ensures Value() == PutIn(old(Value()), k)
    {
      if closed {
        return;
      }
      if |queue| >= CAPACITY {
        overflowed := true;
        return;
      }
      queue := queue + [Event(k, sequence)];
      sequence := sequence + 1;
    }

    /** `finish` and `fail` up to the awaited put: the event is numbered before it waits. */
    method Terminate(k: Kind) returns (e: Event)
      ensures e.sequence == sequence
      ensures e.kind == if k.Final? then FinishKind(Value(), k.response) else k
    {
      var kind := k;
      if k.Final? && overflowed {
        kind := Error(StreamOverflow);
      }
      e := Event(kind, sequence);
    }

    /** The awaited put itself, once the queue has room. */
    method Enqueue(e: Event)
      requires |queue| < CAPACITY
      modifies this
      ensures Value() == EnqueueIn(old(Value()), e)
    {
      queue := queue + [e];
      sequence := sequence + 1;
    }

    method Get() returns (e: Event)
      requires queue != []
      modifies this
      ensures e == old(queue)[0]
      ensures Value() == DequeueFrom(old(Value()))
    {
      e := queue[0];
      queue := queue[1..];
    }
  }

  // ---- producer and consumer ----

  datatype Producer = Emitting | Publishing(event: Event) | Finished | Gone

  /** The last three fields record the run: everything that entered the queue, every
      progress event the producer tried to send, and whether one of them got no place. */
  datatype Sys = Sys(
    sink: Sink, producer: Producer, live: bool, delivered: seq<Event>,
    sent: seq<Event>, emitted: seq<Kind>, lossy: bool)

  const INIT := Sys(Sink([], 0, false, false), Emitting, true, [], [], [], false)

  datatype Step = Progress(kind: Kind) | Finish(response: string) | Fail(code: Code) | Publish | Take | Close | Cancel

  function DoProgress(s: Sys, k: Kind): Sys
  {
    if s.producer != Emitting || Terminal(k) then s
    else
      var placed := !s.sink.closed && |s.sink.queue| < CAPACITY;
      s.(sink := PutIn(s.sink, k), emitted := s.emitted + [k], lossy := s.lossy || !placed,
         sent := if placed then s.sent + [Event(k, s.sink.sequence)] else s.sent)
  }

  /** The consumer's loop: it stops once it has seen a terminal event. */
  function DoTake(s: Sys): Sys
  {
    if !s.live || s.sink.queue == [] then s
    else
      var e := s.sink.queue[0];
      s.(sink := DequeueFrom(s.sink), delivered := s.delivered + [e], live := !Terminal(e.kind))
  }

  function DoPublish(s: Sys): Sys
  {
    if !s.producer.Publishing? || |s.sink.queue| >= CAPACITY then s
    else
      s.(sink := EnqueueIn(s.sink, s.producer.event),
         producer := Finished, sent := s.sent + [s.producer.event])
  }

  function Next(s: Sys, step: Step): Sys
  {
    match step
    case Progress(k) => DoProgress(s, k)
    case Finish(r) =>
      if s.producer != Emitting then s
      else s.(producer := Publishing(Event(FinishKind(s.sink, r), s.sink.sequence)))
    case Fail(code) =>
      if s.producer != Emitting then s
      else s.(producer := Publishing(Event(Error(code), s.sink.sequence)))
    case Publish => DoPublish(s)
    case Take => DoTake(s)
    case Close => s.(sink := s.sink.(closed := true), live := false)
    case Cancel => if s.producer.Finished? then s else s.(producer := Gone)
  }

  function Run(s: Sys, steps: seq<Step>): Sys
    decreases |steps|
  {
    if steps == [] then s else Run(Next(s, steps[0]), steps[1..])
  }

  // ---- the invariant ----

  function Kinds(es: seq<Event>): seq<Kind>
  {
    if es == [] then [] else Kinds(es[..|es| - 1]) + [es[|es| - 1].kind]
  }

  /** The events carry the numbers 0, 1, 2, ... */
  predicate Numbered(es: seq<Event>)
  {
    es == [] || (es[|es| - 1].sequence == |es| - 1 && Numbered(es[..|es| - 1]))
  }

  predicate NoTerminal(es: seq<Event>)
  {
    es == [] || (!Terminal(es[|es| - 1].kind) && NoTerminal(es[..|es| - 1]))
  }

  lemma Append(es: seq<Event>, e: Event)
    ensures Kinds(es + [e]) == Kinds(es) + [e.kind]
    ensures Numbered(es + [e]) <==> Numbered(es) && e.sequence == |es|
    ensures NoTerminal(es + [e]) <==> NoTerminal(es) && !Terminal(e.kind)
  {
    assert (es + [e])[..|es|] == es;
  }

  lemma {:induction false} At(es: seq<Event>, i: nat)
    requires i < |es|
    ensures Numbered(es) ==> es[i].sequence == i
    ensures NoTerminal(es) ==> !Terminal(es[i].kind)
  {
    if i < |es| - 1 {
      At(es[..|es| - 1], i);
    }
  }

  /** The progress events among those sent: all but the terminal, once that is in. */
  function Body(s: Sys): seq<Event>
  {
    if s.producer.Finished? && s.sent != [] then s.sent[..|s.sent| - 1] else s.sent
  }

  /** The terminal event, once it is decided. */
  predicate Announces(s: Sys, k: Kind)
  {
    || (s.producer.Publishing? && s.producer.event.kind == k)
    || (s.producer.Finished? && s.sent != [] && s.sent[|s.sent| - 1].kind == k)
  }

  predicate SentOk(s: Sys)
  {
    && s.delivered + s.sink.queue == s.sent
    && s.sink.sequence == |s.sent| && Numbered(s.sent)
    && NoTerminal(Body(s))
    && (s.producer.Finished? ==> s.sent != [] && Terminal(s.sent[|s.sent| - 1].kind))
    && (s.producer.Publishing? ==> s.producer.event.sequence == |s.sent| && Terminal(s.producer.event.kind))
  }

  predicate LossOk(s: Sys)
  {
    && (!s.lossy ==> Kinds(Body(s)) == s.emitted)
    && (s.sink.overflowed ==> s.lossy)
    && (s.lossy && !s.sink.overflowed ==> !s.live && NoTerminal(s.delivered))
    && (s.sink.overflowed && s.producer.Publishing? ==> !s.producer.event.kind.Final?)
    && (s.sink.overflowed && s.producer.Finished? ==> s.sent != [] && !s.sent[|s.sent| - 1].kind.Final?)
    && (!s.live && !s.sink.closed ==> s.producer.Finished?)
    && (s.sink.closed ==> !s.live)
    && (s.live || !s.producer.Finished? ==> NoTerminal(s.delivered))
  }

  predicate Inv(s: Sys) { SentOk(s) && LossOk(s) }

  /** Only the last event in can be terminal, and then the producer is done. */
  lemma LastIsTerminal(s: Sys, i: nat)
    requires SentOk(s) && i < |s.sent| && Terminal(s.sent[i].kind)
    ensures i == |s.sent| - 1 && s.producer.Finished?
  {
    if i < |Body(s)| {
      At(Body(s), i);
    }
  }

  lemma ProgressKeepsInv(s: Sys, k: Kind)
    requires Inv(s)
    ensures Inv(DoProgress(s, k))
  {
    var e := Event(k, s.sink.sequence);
    Append(s.sent, e);
    assert s.delivered + (s.sink.queue + [e]) == s.delivered + s.sink.queue + [e];
  }

  lemma TakeKeepsSent(s: Sys)
    requires SentOk(s)
    ensures SentOk(DoTake(s))
  {
    if s.live && s.sink.queue != [] {
      var e, rest := s.sink.queue[0], s.sink.queue[1..];
      assert s.delivered + [e] + rest == s.delivered + s.sink.queue;
    }
  }

  lemma TakeKeepsInv(s: Sys)
    requires Inv(s)
    ensures Inv(DoTake(s))
  {
    TakeKeepsSent(s);
    if s.live && s.sink.queue != [] {
      var e := s.sink.queue[0];
      Append(s.delivered, e);
      if Terminal(e.kind) {
        assert s.sent[|s.delivered|] == e;
        LastIsTerminal(s, |s.delivered|);
      }
    }
  }

  lemma PublishKeepsInv(s: Sys)
    requires Inv(s)
    ensures Inv(DoPublish(s))
  {
    if s.producer.Publishing? && |s.sink.queue| < CAPACITY {
      var e := s.producer.event;
      Append(s.sent, e);
      assert s.delivered + (s.sink.queue + [e]) == s.delivered + s.sink.queue + [e];
      assert (s.sent + [e])[..|s.sent|] == s.sent;
    }
  }

  lemma NextKeepsInv(s: Sys, step: Step)
    requires Inv(s)
    ensures Inv(Next(s, step))
  {
    match step
    case Progress(k) => ProgressKeepsInv(s, k);
    case Take => TakeKeepsInv(s);
    case Publish => PublishKeepsInv(s);
    case _ =>
  }

  lemma {:induction false} RunKeepsInv(s: Sys, steps: seq<Step>)
    requires Inv(s)
    ensures Inv(Run(s, steps))
    decreases |steps|
  {
    if steps != [] {
      NextKeepsInv(s, steps[0]);
      RunKeepsInv(Next(s, steps[0]), steps[1..]);
    }
  }

  // ---- what every interleaving keeps ----

  /** Delivered events are numbered 0, 1, 2, ... without gaps, and only the last of them
      can be terminal. */
  lemma DeliveredInOrder(steps: seq<Step>, i: nat)
    requires i < |Run(INIT, steps).delivered|
    ensures var d := Run(INIT, steps).delivered;
            d[i].sequence == i && (Terminal(d[i].kind) ==> i == |d| - 1)
  {
    RunKeepsInv(INIT, steps);
    var s := Run(INIT, steps);
    assert s.sent[i] == s.delivered[i];
    At(s.sent, i);
    if Terminal(s.sent[i].kind) {
      LastIsTerminal(s, i);
    }
  }

  /** A consumer that receives `final` has received every progress event that was ever
      emitted, in order, and nothing overflowed. */
  lemma FinalMeansComplete(steps: seq<Step>)
    requires var d := Run(INIT, steps).delivered; d != [] && d[|d| - 1].kind.Final?
    ensures var s := Run(INIT, steps);
            !s.sink.overflowed && Kinds(s.delivered[..|s.delivered| - 1]) == s.emitted
  {
    hide Run;
    RunKeepsInv(INIT, steps);
    FinalIsComplete(Run(INIT, steps));
  }

  lemma FinalIsComplete(s: Sys)
    requires Inv(s) && s.delivered != [] && s.delivered[|s.delivered| - 1].kind.Final?
    ensures !s.sink.overflowed && Kinds(s.delivered[..|s.delivered| - 1]) == s.emitted
  {
    var n := |s.delivered|;
    assert s.sent[n - 1] == s.delivered[n - 1];
    LastIsTerminal(s, n - 1);
    At(s.delivered, n - 1);
    assert s.delivered[..n - 1] == Body(s);
  }

  /** Any overflow makes the terminal event an error. */
  lemma OverflowIsNeverSuccess(steps: seq<Step>, i: nat)
    requires Run(INIT, steps).sink.overflowed && i < |Run(INIT, steps).delivered|
    ensures !Run(INIT, steps).delivered[i].kind.Final?
  {
    RunKeepsInv(INIT, steps);
    var s := Run(INIT, steps);
    assert s.sent[i] == s.delivered[i];
    if Terminal(s.sent[i].kind) {
      LastIsTerminal(s, i);
    }
  }

  /** A consumer that keeps reading. */
  function Drain(s: Sys): Sys
    decreases |s.sink.queue| + if s.producer.Publishing? then 2 else 0
  {
    if !s.live then s
    else if s.sink.queue != [] then Drain(DoTake(s))
    else if s.producer.Publishing? then Drain(DoPublish(s))
    else s
  }

  predicate EndsWith(es: seq<Event>, k: Kind) { es != [] && es[|es| - 1].kind == k }

  /** One more read either delivers the announced event or leaves it to come. */
  lemma TakeTowardsTerminal(s: Sys, k: Kind)
    requires Inv(s) && s.live && s.sink.queue != [] && Announces(s, k)
    ensures var s' := DoTake(s);
            Inv(s') && (if s'.live then Announces(s', k) else EndsWith(s'.delivered, k))
  {
    TakeKeepsInv(s);
    assert s.sent[|s.delivered|] == s.sink.queue[0];
    if Terminal(s.sink.queue[0].kind) {
      LastIsTerminal(s, |s.delivered|);
    }
  }

  lemma EmptyMeansTaken(s: Sys)
    requires Inv(s) && s.live && s.sink.queue == []
    ensures !s.producer.Finished?
  {
    assert s.delivered + [] == s.delivered;
  }

  /** Once the producer has announced its terminal event, a live consumer that keeps
      reading receives it as its last event. */
  lemma {:induction false} TerminalIsDelivered(s: Sys, k: Kind)
    requires Inv(s) && s.live && Announces(s, k)
    ensures EndsWith(Drain(s).delivered, k)
    decreases |s.sink.queue| + if s.producer.Publishing? then 2 else 0
  {
    if s.sink.queue != [] {
      TakeTowardsTerminal(s, k);
      if DoTake(s).live {
        TerminalIsDelivered(DoTake(s), k);
      }
    } else {
      EmptyMeansTaken(s);
      PublishKeepsInv(s);
      TerminalIsDelivered(DoPublish(s), k);
    }
  }

  // ---- what the producer can count on ----

  predicate AllProgress(steps: seq<Step>) { forall x :: x in steps ==> x.Progress? && !Terminal(x.kind) }

  /** The queue keeps 64 events that nobody has read yet, and loses only those beyond. */
  lemma {:induction false} QueueKeeps64(s: Sys, steps: seq<Step>)
    requires s.producer == Emitting && !s.sink.closed && |s.sink.queue| <= 64 && AllProgress(steps)
    ensures var s', n := Run(s, steps), |s.sink.queue| + |steps|;
            && |s'.sink.queue| == (if n <= 64 then n else 64)
            && (s'.sink.overflowed <==> s.sink.overflowed || n > 64)
    decreases |steps|
  {
    if steps != [] {
      assert steps[0] in steps;
      var s1 := Next(s, steps[0]);
      assert forall x :: x in steps[1..] ==> x in steps;
      QueueKeeps64(s1, steps[1..]);
    }
  }

  /** A run that finishes is announced with its response unless something overflowed, and one
      that fails with its code. */
  lemma AnnouncedAsEnded(s: Sys, response: string, code: Code)
    requires s.producer == Emitting
    ensures Announces(Next(s, Finish(response)), if s.sink.overflowed then Error(StreamOverflow) else Final(response))
    ensures Announces(Next(s, Fail(code)), Error(code))
    ensures Next(s, Finish(response)).producer.event.sequence == s.sink.sequence
  {
  }
}
