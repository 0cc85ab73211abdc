/** The SSE event decoder over split lines, the agent event printer, and the round
    trip between the two. */
module SseEvents {
  import opened Text
  import opened SseLines

  datatype SseError = ResponseLimit | InvalidSse | TruncatedSse

  /** The JSON boundary: serialisation, parsing (`None` for text that is not a JSON
      object) and the payload's own `event` member. */
  datatype Json<!P> = Json(dumps: P -> string, loads: string -> Option<P>, event: P -> string)

  datatype Frame<P> = Frame(name: string, payload: P)

  datatype Outcome<P> = Outcome(events: seq<Frame<P>>, error: Option<SseError>)

  datatype State = State(name: string, data: seq<string>, size: nat, first: bool)

  function Fresh(first: bool): State { State("message", [], 0, first) }

  datatype Step<P> = Next(st: State, out: seq<Frame<P>>) | Fail(error: SseError)

  /** Index of the first colon, or the length. */
  function Colon(s: string): (i: nat)
    ensures i <= |s|
    ensures forall k :: 0 <= k < i ==> s[k] != ':'
    ensures i < |s| ==> s[i] == ':'
  {
    if s == [] || s[0] == ':' then 0 else 1 + Colon(s[1..])
  }

  function FieldName(line: string): string { line[..Colon(line)] }

  function FieldValue(line: string): string
  {
    var i := Colon(line);
    if i == |line| then ""
    else if i + 1 < |line| && line[i + 1] == ' ' then line[i + 2..]
    else line[i + 1..]
  }

  function JoinLines(data: seq<string>): string
  {
    if data == [] then "" else if |data| == 1 then data[0]
    else data[0] + "\n" + JoinLines(data[1..])
  }

  function StripBom(line: string): string
  {
    if line != [] && line[0] == '\U{FEFF}' then line[1..] else line
  }

  /** One line through the decoder. */
  function Feed<P>(json: Json<P>, limit: nat, st: State, raw: string): Step<P>
  {
    var line := if st.first then StripBom(raw) else raw;
    var size := st.size + Bytes(line) + 1;
    if size > limit then Fail(ResponseLimit)
    else if line == "" then
      if st.data == [] then Next(Fresh(false), [])
      else
        match json.loads(JoinLines(st.data))
        case None => Fail(InvalidSse)
        case Some(p) =>
          if json.event(p) != st.name then Fail(InvalidSse)
          else Next(Fresh(false), [Frame(st.name, p)])
    else
      var st' := st.(size := size, first := false);
      if line[0] == ':' then Next(st', [])
      else if FieldName(line) == "event" then Next(st'.(name := FieldValue(line)), [])
      else if FieldName(line) == "data" then Next(st'.(data := st.data + [FieldValue(line)]), [])
      else Next(st', [])
  }

  /** How the decoder ends: a failed line source, a frame left open, or well. */
  function Ending(st: State, cutOff: bool): Option<SseError>
  {
    if cutOff then Some(ResponseLimit)
    else if st.data != [] || st.name != "message" then Some(TruncatedSse)
    else None
  }

  /** The events a list of lines yields; `cutOff` says the line source failed after
      the last of them. */
  function Parse<P>(json: Json<P>, limit: nat, st: State, lines: seq<string>, cutOff: bool): Outcome<P>
    decreases |lines|
  {
    if lines == [] then Outcome([], Ending(st, cutOff))
    else
      match Feed(json, limit, st, lines[0])
      case Fail(e) => Outcome([], Some(e))
      case Next(st', out) =>
        var rest := Parse(json, limit, st', lines[1..], cutOff);
        Outcome(out + rest.events, rest.error)
  }

  function Prepend<P>(events: seq<Frame<P>>, o: Outcome<P>): Outcome<P> { Outcome(events + o.events, o.error) }

  /** One turn of the decoder loop, for any events yielded so far. */
  lemma ParseStep<P>(
      json: Json<P>, limit: nat, st: State, lines: seq<string>, k: nat, cutOff: bool, events: seq<Frame<P>>)
    requires k < |lines|
    ensures var here := Prepend(events, Parse(json, limit, st, lines[k..], cutOff));
            match Feed(json, limit, st, lines[k])
            case Fail(e) => here == Outcome(events, Some(e))
            case Next(st', out) => here == Prepend(events + out, Parse(json, limit, st', lines[k + 1..], cutOff))
  {
    assert lines[k..][1..] == lines[k + 1..];
  }

  /** The decoder loop of `_sse_events` over the lines it is given. */
  method ParseLines<P>(json: Json<P>, limit: nat, lines: seq<string>, cutOff: bool) returns (got: Outcome<P>)
    ensures got == Parse(json, limit, Fresh(true), lines, cutOff)
  {
    hide Bytes, FieldName, FieldValue, JoinLines, StripBom, Parse;
    var name, data, first := "message", [], true;
    var size: nat := 0;
    var events: seq<Frame<P>> := [];
    ghost var whole := Parse(json, limit, Fresh(true), lines, cutOff);
    assert lines[0..] == lines;
    for k := 0 to |lines|
      invariant whole == Prepend(events, Parse(json, limit, State(name, data, size, first), lines[k..], cutOff))
    {
      ParseStep(json, limit, State(name, data, size, first), lines, k, cutOff, events);
      var line := lines[k];
      if first {
        line := StripBom(line);
        first := false;
      }
      size := size + Bytes(line) + 1;
      if size > limit {
        return Outcome(events, Some(ResponseLimit));
      }
      if line == "" {
        if data != [] {
          var payload := json.loads(JoinLines(data));
          if payload.None? || json.event(payload.value) != name {
            return Outcome(events, Some(InvalidSse));
          }
          events := events + [Frame(name, payload.value)];
        }
        name, data, size := "message", [], 0;
      } else if line[0] != ':' {
        if FieldName(line) == "event" {
          name := FieldValue(line);
        } else if FieldName(line) == "data" {
          data := data + [FieldValue(line)];
        }
      }
      assert events + [] == events;
    }
    NothingLeft(json, limit, State(name, data, size, first), lines[|lines|..], cutOff, events);
    got := Outcome(events, Ending(State(name, data, size, first), cutOff));
  }

  lemma NothingLeft<P>(json: Json<P>, limit: nat, st: State, lines: seq<string>, cutOff: bool, events: seq<Frame<P>>)
    requires lines == []
    ensures Prepend(events, Parse(json, limit, st, lines, cutOff)) == Outcome(events, Ending(st, cutOff))
  {
  }

  lemma {:induction false} CutOffIsAnError<P>(json: Json<P>, limit: nat, st: State, lines: seq<string>)
    ensures Parse(json, limit, st, lines, true).error.Some?
    decreases |lines|
  {
    if lines != [] {
      match Feed(json, limit, st, lines[0])
      case Fail(_) =>
      case Next(st', _) => CutOffIsAnError(json, limit, st', lines[1..]);
    }
  }

  /** `_sse_events`: reads the body through the splitter and yields its events. On an
      accepted body the outcome depends on the text alone, not on the reads. */
  method ReadEvents<P>(json: Json<P>, chunks: seq<Chunk>, maxBody: nat, limit: nat)
    returns (got: Outcome<P>)
    ensures Accepted(chunks, maxBody, limit) ==>
              got == Parse(json, limit, Fresh(true), Lines(TextOf(chunks)), false)
    ensures !Accepted(chunks, maxBody, limit) ==> got.error.Some?
  {
    var lines, cutOff := SplitLines(chunks, maxBody, limit);
    got := ParseLines(json, limit, lines, cutOff);
    if cutOff {
      CutOffIsAnError(json, limit, Fresh(true), lines);
    }
  }

  // ---- the printer ----

  datatype Sent<P> = Sent(sequence: nat, payload: P)

  function IdLine<P>(e: Sent<P>): string { "id: " + Decimal(e.sequence) }
  function EventLine<P>(json: Json<P>, e: Sent<P>): string { "event: " + json.event(e.payload) }
  function DataLine<P>(json: Json<P>, e: Sent<P>): string { "data: " + json.dumps(e.payload) }

  /** `format_agent_sse_event` */
  function FormatEvent<P>(json: Json<P>, e: Sent<P>): string
  {
    IdLine(e) + "\n" + (EventLine(json, e) + "\n" + (DataLine(json, e) + "\n" + ("" + "\n" + "")))
  }

  function Wire<P>(json: Json<P>, es: seq<Sent<P>>): string
  {
    if es == [] then "" else FormatEvent(json, es[0]) + Wire(json, es[1..])
  }

  function Frames<P>(json: Json<P>, es: seq<Sent<P>>): seq<Frame<P>>
  {
    if es == [] then [] else [Frame(json.event(es[0].payload), es[0].payload)] + Frames(json, es[1..])
  }

  /** What JSON promises of one payload: it parses back, on one line; and the event
      kinds are single-line words that do not begin with the default name. */
  ghost predicate Printable<P>(json: Json<P>, p: P)
  {
    && json.loads(json.dumps(p)) == Some(p)
    && NoBreak(json.dumps(p))
    && NoBreak(json.event(p))
    && !("message" <= json.event(p))
  }

  ghost predicate Sendable<P>(json: Json<P>, limit: nat, es: seq<Sent<P>>)
  {
    forall i :: 0 <= i < |es| ==>
      Printable(json, es[i].payload) && Bytes(FormatEvent(json, es[i])) <= limit
  }

  lemma LinesAreUnbroken<P>(json: Json<P>, e: Sent<P>)
    requires Printable(json, e.payload)
    ensures NoBreak(IdLine(e)) && NoBreak(EventLine(json, e)) && NoBreak(DataLine(json, e))
  {
    var d := Decimal(e.sequence);
    forall i | 0 <= i < |IdLine(e)| ensures !IsBreak(IdLine(e)[i]) {
      if i >= 4 {
        assert IdLine(e)[i] == d[i - 4] && d[i - 4] in d;
      }
    }
  }

  lemma FrameLines<P>(json: Json<P>, e: Sent<P>, r: string)
    requires Printable(json, e.payload)
    ensures Lines(FormatEvent(json, e) + r) ==
            [IdLine(e)] + ([EventLine(json, e)] + ([DataLine(json, e)] + ([""] + Lines(r))))
  {
    LinesAreUnbroken(json, e);
    var a, b, c := IdLine(e), EventLine(json, e), DataLine(json, e);
    var t3 := "" + "\n" + "";
    var t2 := c + "\n" + t3;
    var t1 := b + "\n" + t2;
    assert FormatEvent(json, e) + r == a + "\n" + (t1 + r);
    assert t1 + r == b + "\n" + (t2 + r);
    assert t2 + r == c + "\n" + (t3 + r);
    assert t3 + r == "" + "\n" + r;
    TakeTerminatedLine(a, t1 + r);
    TakeTerminatedLine(b, t2 + r);
    TakeTerminatedLine(c, t3 + r);
    TakeTerminatedLine("", r);
  }

  lemma FrameBytes<P>(json: Json<P>, e: Sent<P>)
    ensures Bytes(FormatEvent(json, e)) ==
            Bytes(IdLine(e)) + Bytes(EventLine(json, e)) + Bytes(DataLine(json, e)) + 4
  {
    var a, b, c := IdLine(e), EventLine(json, e), DataLine(json, e);
    var t3 := "" + "\n" + "";
    var t2 := c + "\n" + t3;
    var t1 := b + "\n" + t2;
    assert Bytes("\n") == 1 + Bytes("\n"[1..]);
    assert t3 == "\n";
    BytesConcat(c + "\n", t3);
    BytesConcat(c, "\n");
    BytesConcat(b + "\n", t2);
    BytesConcat(b, "\n");
    BytesConcat(a + "\n", t1);
    BytesConcat(a, "\n");
  }

  lemma ColonAt(s: string, i: nat)
    requires i < |s| && s[i] == ':' && forall k :: 0 <= k < i ==> s[k] != ':'
    ensures Colon(s) == i
  {
  }

  lemma FieldOf(key: string, value: string)
    requires forall k :: 0 <= k < |key| ==> key[k] != ':'
    ensures FieldName(key + ": " + value) == key
    ensures FieldValue(key + ": " + value) == value
  {
    var s := key + ": " + value;
    ColonAt(s, |key|);
    assert s[..|key|] == key;
    assert s[|key| + 2..] == value;
  }

  /** The four lines of one frame take the decoder from rest to rest and yield that
      frame's event. */
  lemma FeedFrame<P>(json: Json<P>, limit: nat, first: bool, e: Sent<P>, rest: seq<string>, cutOff: bool)
    requires Printable(json, e.payload)
    requires Bytes(FormatEvent(json, e)) <= limit
    ensures var tail := Parse(json, limit, Fresh(false), rest, cutOff);
            Parse(json, limit, Fresh(first),
                  [IdLine(e)] + ([EventLine(json, e)] + ([DataLine(json, e)] + ([""] + rest))), cutOff)
            == Outcome([Frame(json.event(e.payload), e.payload)] + tail.events, tail.error)
  {
    FrameBytes(json, e);
    var l4 := [""] + rest;
    var l3 := [DataLine(json, e)] + l4;
    var l2 := [EventLine(json, e)] + l3;
    var l1 := [IdLine(e)] + l2;
    assert l1[1..] == l2 && l2[1..] == l3 && l3[1..] == l4 && l4[1..] == rest;
    var s1, s2 := AfterId(json, limit, first, e), AfterEvent(json, limit, first, e);
    var s3 := AfterData(json, limit, first, e);
    assert Bytes("") == 0;
    var tail := Parse(json, limit, Fresh(false), rest, cutOff);
    var p4 := Parse(json, limit, s3, l4, cutOff);
    assert JoinLines(s3.data) == json.dumps(e.payload);
    assert Feed(json, limit, s3, "") == Next(Fresh(false), [Frame(json.event(e.payload), e.payload)]);
    assert p4 == Outcome([Frame(json.event(e.payload), e.payload)] + tail.events, tail.error);
    var p3 := Parse(json, limit, s2, l3, cutOff);
    assert p3 == Outcome([] + p4.events, p4.error);
    var p2 := Parse(json, limit, s1, l2, cutOff);
    assert p2 == Outcome([] + p3.events, p3.error);
    var p1 := Parse(json, limit, Fresh(first), l1, cutOff);
    assert p1 == Outcome([] + p2.events, p2.error);
  }

  function AfterId<P>(json: Json<P>, limit: nat, first: bool, e: Sent<P>): (st: State)
    requires Bytes(IdLine(e)) + 1 <= limit
    ensures st == State("message", [], Bytes(IdLine(e)) + 1, false)
    ensures Feed(json, limit, Fresh(first), IdLine(e)) == Next(st, [])
  {
    FieldOf("id", Decimal(e.sequence));
    assert IdLine(e) == "id" + ": " + Decimal(e.sequence);
    State("message", [], Bytes(IdLine(e)) + 1, false)
  }

  function AfterEvent<P>(json: Json<P>, limit: nat, first: bool, e: Sent<P>): (st: State)
    requires Bytes(IdLine(e)) + Bytes(EventLine(json, e)) + 2 <= limit
    ensures st == State(json.event(e.payload), [], Bytes(IdLine(e)) + Bytes(EventLine(json, e)) + 2, false)
    ensures Feed(json, limit, AfterId(json, limit, first, e), EventLine(json, e)) == Next(st, [])
  {
    FieldOf("event", json.event(e.payload));
    assert EventLine(json, e) == "event" + ": " + json.event(e.payload);
    State(json.event(e.payload), [], Bytes(IdLine(e)) + Bytes(EventLine(json, e)) + 2, false)
  }

  function AfterData<P>(json: Json<P>, limit: nat, first: bool, e: Sent<P>): (st: State)
    requires Bytes(IdLine(e)) + Bytes(EventLine(json, e)) + Bytes(DataLine(json, e)) + 3 <= limit
    ensures st == State(json.event(e.payload), [json.dumps(e.payload)],
                        Bytes(IdLine(e)) + Bytes(EventLine(json, e)) + Bytes(DataLine(json, e)) + 3, false)
    ensures Feed(json, limit, AfterEvent(json, limit, first, e), DataLine(json, e)) == Next(st, [])
  {
    FieldOf("data", json.dumps(e.payload));
    assert DataLine(json, e) == "data" + ": " + json.dumps(e.payload);
    assert [] + [json.dumps(e.payload)] == [json.dumps(e.payload)];
    State(json.event(e.payload), [json.dumps(e.payload)],
          Bytes(IdLine(e)) + Bytes(EventLine(json, e)) + Bytes(DataLine(json, e)) + 3, false)
  }

  /** Printed frames decode to exactly their events, whatever text follows them. */
  lemma {:induction false} WireThen<P>(json: Json<P>, limit: nat, first: bool, es: seq<Sent<P>>, r: string)
    requires Sendable(json, limit, es)
    ensures var tail := Parse(json, limit, Fresh(first && es == []), Lines(r), false);
            Parse(json, limit, Fresh(first), Lines(Wire(json, es) + r), false)
            == Outcome(Frames(json, es) + tail.events, tail.error)
    decreases |es|
  {
    if es == [] {
      assert Wire(json, es) + r == r;
      var tail := Parse(json, limit, Fresh(first), Lines(r), false);
      assert Frames(json, es) + tail.events == tail.events;
    } else {
      var e, more := es[0], es[1..];
      assert Sendable(json, limit, more) by {
        assert forall i :: 0 <= i < |more| ==> more[i] == es[i + 1];
      }
      assert Wire(json, es) + r == FormatEvent(json, e) + (Wire(json, more) + r);
      FrameLines(json, e, Wire(json, more) + r);
      FeedFrame(json, limit, first, e, Lines(Wire(json, more) + r), false);
      WireThen(json, limit, false, more, r);
      var tail := Parse(json, limit, Fresh(false), Lines(r), false);
      assert [Frame(json.event(e.payload), e.payload)] + (Frames(json, more) + tail.events)
        == Frames(json, es) + tail.events;
    }
  }

  predicate AllFit(lines: seq<string>, limit: nat) { forall l :: l in lines ==> Bytes(l) < limit }

  lemma FitCons(l: string, lines: seq<string>, limit: nat)
    requires Bytes(l) < limit && AllFit(lines, limit)
    ensures AllFit([l] + lines, limit)
  {
  }

  lemma FrameLinesFit<P>(json: Json<P>, limit: nat, e: Sent<P>, lines: seq<string>)
    requires Bytes(FormatEvent(json, e)) <= limit && AllFit(lines, limit)
    ensures AllFit([IdLine(e)] + ([EventLine(json, e)] + ([DataLine(json, e)] + ([""] + lines))), limit)
  {
    FrameBytes(json, e);
    var l1 := [""] + lines;
    var l2 := [DataLine(json, e)] + l1;
    var l3 := [EventLine(json, e)] + l2;
    FitCons("", lines, limit);
    FitCons(DataLine(json, e), l1, limit);
    FitCons(EventLine(json, e), l2, limit);
    FitCons(IdLine(e), l3, limit);
  }

  lemma {:induction false} WireLinesFit<P>(json: Json<P>, limit: nat, es: seq<Sent<P>>)
    requires Sendable(json, limit, es)
    ensures AllFit(Lines(Wire(json, es)), limit)
    decreases |es|
  {
    if es != [] {
      var e, more := es[0], es[1..];
      assert Sendable(json, limit, more) by {
        assert forall i :: 0 <= i < |more| ==> more[i] == es[i + 1];
      }
      FrameLines(json, e, Wire(json, more));
      WireLinesFit(json, limit, more);
      FrameLinesFit(json, limit, e, Lines(Wire(json, more)));
    }
  }

  /** Every cutting of concatenated frames into reads is accepted and decodes to
      exactly the printed events, in order, without an error. */
  lemma RoundTrip<P>(json: Json<P>, es: seq<Sent<P>>, chunks: seq<Chunk>, maxBody: nat, limit: nat)
    requires Sendable(json, limit, es)
    requires TextOf(chunks) == Wire(json, es) && BytesOf(chunks) <= maxBody
    ensures Accepted(chunks, maxBody, limit)
    ensures Parse(json, limit, Fresh(true), Lines(TextOf(chunks)), false) == Outcome(Frames(json, es), None)
  {
    WireLinesFit(json, limit, es);
    CutsAreIrrelevant(chunks, maxBody, limit);
    WireThen(json, limit, true, es, "");
    assert Wire(json, es) + "" == Wire(json, es);
    assert Lines("") == [];
  }

  // ---- streams that stop early ----

  lemma BytesPrefix(s: string, n: nat)
    requires n <= |s|
    ensures Bytes(s[..n]) <= Bytes(s)
  {
    assert s == s[..n] + s[n..];
    BytesConcat(s[..n], s[n..]);
  }

  /** `[]` for an empty text, else the text as one unterminated line. */
  function Tail(s: string): seq<string> { if s == "" then [] else [s] }

  lemma LinesOfTail(s: string, n: nat)
    requires NoBreak(s) && n <= |s|
    ensures Lines(s[..n]) == Tail(s[..n])
  {
    if n > 0 {
      FirstBreakUnique(s[..n], n);
    }
  }

  lemma TakeCutLine(l: string, r: string, n: nat)
    requires NoBreak(l) && n <= |l| + 1 + |r|
    ensures Lines((l + "\n" + r)[..n]) ==
            if n <= |l| then Tail(l[..n]) else [l] + Lines(r[..n - |l| - 1])
  {
    var t := l + "\n" + r;
    if n <= |l| {
      assert t[..n] == l[..n];
      LinesOfTail(l, n);
    } else {
      assert t[..n] == l + "\n" + r[..n - |l| - 1];
      TakeTerminatedLine(l, r[..n - |l| - 1]);
    }
  }

  lemma CutLastLine(c: string, m: nat)
    requires NoBreak(c) && c != "" && m <= |c| + 1
    ensures Lines((c + "\n" + ("" + "\n" + ""))[..m]) == Tail(c[..if m <= |c| then m else |c|])
  {
    var t := "" + "\n" + "";
    TakeCutLine(c, t, m);
    if m > |c| {
      assert t[..m - |c| - 1] == "" && Lines("") == [];
      assert c[..|c|] == c;
    }
  }

  lemma CutTwoLines(b: string, c: string, m: nat)
    requires NoBreak(b) && NoBreak(c) && c != "" && m <= |b| + 1 + |c| + 1
    ensures Lines((b + "\n" + (c + "\n" + ("" + "\n" + "")))[..m]) ==
            if m <= |b| then Tail(b[..m])
            else [b] + Tail(c[..if m - |b| - 1 <= |c| then m - |b| - 1 else |c|])
  {
    TakeCutLine(b, c + "\n" + ("" + "\n" + ""), m);
    if m > |b| {
      CutLastLine(c, m - |b| - 1);
    }
  }

  /** The lines of a frame that stopped before its last character. */
  function CutLines(a: string, b: string, c: string, n: nat): seq<string>
  {
    if n <= |a| then Tail(a[..n])
    else if n <= |a| + 1 + |b| then [a] + Tail(b[..n - |a| - 1])
    else [a] + ([b] + Tail(c[..if n - |a| - |b| - 2 <= |c| then n - |a| - |b| - 2 else |c|]))
  }

  lemma CutThreeLines(a: string, b: string, c: string, n: nat)
    requires NoBreak(a) && NoBreak(b) && NoBreak(c) && c != "" && n <= |a| + |b| + |c| + 3
    ensures Lines((a + "\n" + (b + "\n" + (c + "\n" + ("" + "\n" + ""))))[..n]) == CutLines(a, b, c, n)
  {
    var t := b + "\n" + (c + "\n" + ("" + "\n" + ""));
    TakeCutLine(a, t, n);
    if n > |a| {
      var m := n - |a| - 1;
      CutTwoLines(b, c, m);
      assert Lines((a + "\n" + t)[..n]) == [a] + Lines(t[..m]);
    }
  }

  lemma CutFrameLines<P>(json: Json<P>, e: Sent<P>, n: nat)
    requires Printable(json, e.payload) && n < |FormatEvent(json, e)|
    ensures Lines(FormatEvent(json, e)[..n]) == CutLines(IdLine(e), EventLine(json, e), DataLine(json, e), n)
  {
    LinesAreUnbroken(json, e);
    CutThreeLines(IdLine(e), EventLine(json, e), DataLine(json, e), n);
  }

  lemma CutEventValue<P>(json: Json<P>, e: Sent<P>, m: nat)
    requires 0 < m <= |EventLine(json, e)|
    ensures var l := EventLine(json, e)[..m];
            && FieldName(l) != "data"
            && (FieldName(l) == "event" <==> m >= 5)
            && (m >= 5 ==> FieldValue(l) <= json.event(e.payload))
  {
    var l := EventLine(json, e)[..m];
    assert l[0] == 'e';
    if m > 5 {
      ColonAt(l, 5);
      assert l[..5] == "event";
    } else {
      assert forall k :: 0 <= k < m ==> l[k] == "event"[k];
      assert Colon(l) == m;
      assert l[..m] == l;
      assert m == 5 ==> l == "event";
    }
  }

  /** A stream cut inside a frame yields nothing for it, and is reported as truncated
      exactly when the frame's `event` field name has fully arrived. */
  lemma CutFrame<P>(json: Json<P>, limit: nat, first: bool, e: Sent<P>, n: nat)
    requires Printable(json, e.payload) && Bytes(FormatEvent(json, e)) <= limit
    requires n < |FormatEvent(json, e)|
    ensures Parse(json, limit, Fresh(first), Lines(FormatEvent(json, e)[..n]), false)
            == Outcome([], if n < |IdLine(e)| + 6 then None else Some(TruncatedSse))
  {
    var a, b, c := IdLine(e), EventLine(json, e), DataLine(json, e);
    FrameBytes(json, e);
    CutFrameLines(json, e, n);
    if n <= |a| {
      CutId(json, limit, first, e, n);
    } else if n <= |a| + 1 + |b| {
      var m := n - |a| - 1;
      CutEvent(json, limit, AfterId(json, limit, first, e), e, m);
      var tail := Tail(b[..m]);
      assert ([a] + tail)[1..] == tail;
    } else {
      var m := if n - |a| - |b| - 2 <= |c| then n - |a| - |b| - 2 else |c|;
      var s2 := AfterEvent(json, limit, first, e);
      CutData(json, limit, s2, e, m);
      var tail := Tail(c[..m]);
      assert ([b] + tail)[1..] == tail && ([a] + ([b] + tail))[1..] == [b] + tail;
      var p2 := Parse(json, limit, AfterId(json, limit, first, e), [b] + tail, false);
      assert p2 == Parse(json, limit, s2, tail, false);
    }
  }

  lemma CutId<P>(json: Json<P>, limit: nat, first: bool, e: Sent<P>, n: nat)
    requires n <= |IdLine(e)| && Bytes(IdLine(e)) + 1 <= limit
    ensures Parse(json, limit, Fresh(first), Tail(IdLine(e)[..n]), false) == Outcome([], None)
  {
    if n > 0 {
      var l := IdLine(e)[..n];
      BytesPrefix(IdLine(e), n);
      assert l[0] == 'i' && FieldName(l)[0] == 'i';
      assert [l][1..] == Tail("");
    }
  }

  lemma CutEvent<P>(json: Json<P>, limit: nat, st: State, e: Sent<P>, m: nat)
    requires m <= |EventLine(json, e)| && Printable(json, e.payload)
    requires st.name == "message" && st.data == [] && !st.first
    requires st.size + Bytes(EventLine(json, e)) + 1 <= limit
    ensures Parse(json, limit, st, Tail(EventLine(json, e)[..m]), false)
            == Outcome([], if m < 5 then None else Some(TruncatedSse))
  {
    if m > 0 {
      var l := EventLine(json, e)[..m];
      BytesPrefix(EventLine(json, e), m);
      CutEventValue(json, e, m);
      assert l[0] == 'e';
      assert [l][1..] == Tail("");
    }
  }

  lemma CutData<P>(json: Json<P>, limit: nat, st: State, e: Sent<P>, m: nat)
    requires m <= |DataLine(json, e)|
    requires st.name != "message" && !st.first
    requires st.size + Bytes(DataLine(json, e)) + 1 <= limit
    ensures Parse(json, limit, st, Tail(DataLine(json, e)[..m]), false) == Outcome([], Some(TruncatedSse))
  {
    if m > 0 {
      var l := DataLine(json, e)[..m];
      BytesPrefix(DataLine(json, e), m);
      assert l[0] == 'd' && FieldName(l)[0] == 'd';
      assert [l][1..] == Tail("");
    }
  }

  /** A stream that stops anywhere never forges, loses or reorders a completed event:
      it yields exactly the events of the frames that arrived in full. */
  lemma CutStream<P>(json: Json<P>, limit: nat, es: seq<Sent<P>>, e: Sent<P>, n: nat)
    requires Sendable(json, limit, es)
    requires Printable(json, e.payload) && Bytes(FormatEvent(json, e)) <= limit
    requires n < |FormatEvent(json, e)|
    ensures Parse(json, limit, Fresh(true), Lines(Wire(json, es) + FormatEvent(json, e)[..n]), false)
            == Outcome(Frames(json, es), if n < |IdLine(e)| + 6 then None else Some(TruncatedSse))
  {
    WireThen(json, limit, true, es, FormatEvent(json, e)[..n]);
    CutFrame(json, limit, es == [], e, n);
    assert Frames(json, es) + [] == Frames(json, es);
  }
}
