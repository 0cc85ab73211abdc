/** The incremental line splitter in front of the SSE decoder. */
module SseLines {
  import opened Text

  predicate IsBreak(c: char) { c == '\r' || c == '\n' }

  predicate NoBreak(s: string) { forall i :: 0 <= i < |s| ==> !IsBreak(s[i]) }

  /** Index of the first line break, or the length when there is none. */
  function FirstBreak(s: string): (i: nat)
    ensures i <= |s|
    ensures NoBreak(s[..i])
    ensures i < |s| ==> IsBreak(s[i])
  {
    if s == [] || IsBreak(s[0]) then 0
    else
      var i := 1 + FirstBreak(s[1..]);
      assert forall k :: 1 <= k < i ==> s[k] == s[1..][..i - 1][k - 1];
      i
  }

  lemma FirstBreakUnique(s: string, i: nat)
    requires i <= |s| && NoBreak(s[..i]) && (i < |s| ==> IsBreak(s[i]))
    ensures FirstBreak(s) == i
  {
    var j := FirstBreak(s);
    assert forall k :: 0 <= k < i ==> s[k] == s[..i][k] && !IsBreak(s[k]);
    assert forall k :: 0 <= k < j ==> s[k] == s[..j][k] && !IsBreak(s[k]);
  }

  /** CRLF is one break of two characters; CR and LF alone are breaks of one. */
  function BreakLength(s: string, i: nat): (n: nat)
    requires i < |s|
    ensures 1 <= n && i + n <= |s|
  {
    if s[i] == '\r' && i + 1 < |s| && s[i + 1] == '\n' then 2 else 1
  }

  /** Reference meaning: the lines of a whole text split on CRLF, CR or LF, where
      the last line need not be terminated. */
  function Lines(s: string): (ls: seq<string>)
    ensures ls == [] <==> s == []
    decreases |s|
  {
    var i := FirstBreak(s);
    if s == [] then []
    else if i == |s| then [s]
    else [s[..i]] + Lines(s[i + BreakLength(s, i)..])
  }

  /** Whether the first break of `s` is certain: a CR at the very end may still
      turn out to be the first half of a CRLF. */
  predicate HasLine(s: string)
  {
    var i := FirstBreak(s);
    i < |s| && !(s[i] == '\r' && i + 1 == |s|)
  }

  function LineEnd(s: string): (n: nat)
    requires HasLine(s)
    ensures 0 < n <= |s|
  {
    FirstBreak(s) + BreakLength(s, FirstBreak(s))
  }

  /** The lines that are already certain, whatever text follows. */
  function Complete(s: string): (ls: seq<string>)
    decreases |s|
  {
    if !HasLine(s) then [] else [s[..FirstBreak(s)]] + Complete(s[LineEnd(s)..])
  }

  /** The text after the last certain line. */
  function Held(s: string): (h: string)
    ensures !HasLine(h)
    decreases |s|
  {
    if !HasLine(s) then s else Held(s[LineEnd(s)..])
  }

  /** A certain first line stays the first line when text is appended. */
  lemma FirstLineStable(s: string, r: string)
    requires HasLine(s)
    ensures HasLine(s + r)
    ensures (s + r)[..FirstBreak(s + r)] == s[..FirstBreak(s)]
    ensures (s + r)[LineEnd(s + r)..] == s[LineEnd(s)..] + r
  {
    var i := FirstBreak(s);
    assert (s + r)[..i] == s[..i];
    FirstBreakUnique(s + r, i);
  }

  /** Splitting is incremental: only the held text matters for what follows. */
  lemma {:induction false} Incremental(s: string, r: string)
    ensures Complete(s + r) == Complete(s) + Complete(Held(s) + r)
    ensures Held(s + r) == Held(Held(s) + r)
    decreases |s|
  {
    if HasLine(s) {
      FirstLineStable(s, r);
      Incremental(s[LineEnd(s)..], r);
    }
  }

  /** The streaming view and the whole-text view name the same lines. */
  lemma {:induction false} CompleteThenHeld(s: string)
    ensures Lines(s) == Complete(s) + Lines(Held(s))
    decreases |s|
  {
    if HasLine(s) {
      CompleteThenHeld(s[LineEnd(s)..]);
    }
  }

  lemma LinesResume(s: string, r: string)
    ensures Lines(s + r) == Complete(s) + Lines(Held(s) + r)
  {
    CompleteThenHeld(s + r);
    CompleteThenHeld(Held(s) + r);
    Incremental(s, r);
  }

  lemma TakeTerminatedLine(l: string, r: string)
    requires NoBreak(l)
    ensures Lines(l + "\n" + r) == [l] + Lines(r)
  {
    var s := l + "\n" + r;
    assert s[..|l|] == l;
    FirstBreakUnique(s, |l|);
    assert s[|l| + 1..] == r;
  }

  /** An unbroken start of a text is the start of its first line. */
  lemma UnbrokenStart(h: string, r: string)
    requires h != [] && NoBreak(h)
    ensures Lines(h + r) != [] && h <= Lines(h + r)[0]
    ensures Bytes(h) <= Bytes(Lines(h + r)[0])
  {
    var t := h + r;
    var i := FirstBreak(t);
    assert forall k :: 0 <= k < |h| ==> t[k] == h[k];
    var l := t[..i];
    assert Lines(t)[0] == l;
    assert l == h + l[|h|..];
    BytesConcat(h, l[|h|..]);
  }

  predicate EndsInCr(s: string) { s != [] && s[|s| - 1] == '\r' }

  lemma {:induction false} HeldEnding(s: string)
    ensures EndsInCr(s) <==> EndsInCr(Held(s))
    decreases |s|
  {
    if HasLine(s) {
      HeldEnding(s[LineEnd(s)..]);
    }
  }

  /** Held text is one unterminated line, or one line and the CR that ends it. */
  lemma HeldShape(h: string)
    requires h != [] && !HasLine(h)
    ensures EndsInCr(h) ==> Lines(h) == [h[..|h| - 1]] && Bytes(h) == Bytes(h[..|h| - 1]) + 1
    ensures !EndsInCr(h) ==> NoBreak(h) && Lines(h) == [h]
  {
    hide Bytes;
    var i := FirstBreak(h);
    if i == |h| {
      assert h[..i] == h;
      assert forall k :: 0 <= k < i ==> !IsBreak(h[k]);
    } else {
      CrBytes(h);
      assert h[i + 1..] == [] && Lines([]) == [];
    }
  }

  lemma CrBytes(h: string)
    requires EndsInCr(h)
    ensures Bytes(h) == Bytes(h[..|h| - 1]) + 1
  {
    var last := [h[|h| - 1]];
    assert h == h[..|h| - 1] + last;
    BytesConcat(h[..|h| - 1], last);
    assert last[1..] == [] && Bytes(last) == CharBytes(last[0]) + Bytes([]);
  }

  /** One read from the transport: how many bytes arrived, and the text the
      incremental UTF-8 decoder released for them. */
  datatype Chunk = Chunk(bytes: nat, text: string)

  function TextOf(chunks: seq<Chunk>): (s: string)
  {
    if chunks == [] then "" else TextOf(chunks[..|chunks| - 1]) + chunks[|chunks| - 1].text
  }

  function BytesOf(chunks: seq<Chunk>): (n: nat)
  {
    if chunks == [] then 0 else BytesOf(chunks[..|chunks| - 1]) + chunks[|chunks| - 1].bytes
  }

  lemma {:induction false} BytesOfPrefix(chunks: seq<Chunk>, k: nat)
    requires k <= |chunks|
    ensures BytesOf(chunks[..k]) <= BytesOf(chunks)
    decreases |chunks|
  {
    if k < |chunks| {
      var init := chunks[..|chunks| - 1];
      assert init[..k] == chunks[..k];
      BytesOfPrefix(init, k);
    } else {
      assert chunks[..k] == chunks;
    }
  }

  ghost function RestOf(chunks: seq<Chunk>, k: nat): (r: string)
    requires k <= |chunks|
    ensures TextOf(chunks[..k]) + r == TextOf(chunks)
    decreases |chunks| - k
  {
    if k == |chunks| then
      assert chunks[..k] == chunks;
      ""
    else
      var r := chunks[k].text + RestOf(chunks, k + 1);
      assert chunks[..k + 1][..k] == chunks[..k];
      assert TextOf(chunks[..k]) + r == TextOf(chunks[..k + 1]) + RestOf(chunks, k + 1);
      r
  }

  /** A CR that ends a read is held back and counted against the line limit, so
      the line it ends must be strictly below the limit. */
  predicate HeldCrFits(seen: string, limit: nat)
  {
    EndsInCr(seen) ==> Bytes(Lines(seen)[|Lines(seen)| - 1]) < limit
  }

  predicate LinesFit(ls: seq<string>, limit: nat)
  {
    forall l :: l in ls ==> Bytes(l) <= limit
  }

  /** `HeldCrFits` at the end of every read. */
  predicate CutsFit(chunks: seq<Chunk>, limit: nat)
  {
    chunks == [] || (CutsFit(chunks[..|chunks| - 1], limit) && HeldCrFits(TextOf(chunks), limit))
  }

  lemma {:induction false} CutsFitAt(chunks: seq<Chunk>, k: nat, limit: nat)
    requires 0 < k <= |chunks| && CutsFit(chunks, limit)
    ensures HeldCrFits(TextOf(chunks[..k]), limit)
    decreases |chunks|
  {
    if k < |chunks| {
      var init := chunks[..|chunks| - 1];
      assert init[..k] == chunks[..k];
      CutsFitAt(init, k, limit);
    } else {
      assert chunks[..k] == chunks;
    }
  }

  /** Exactly when the splitter accepts a body: total size, every line, and every
      read that ends right after the CR of a line of full length. */
  predicate Accepted(chunks: seq<Chunk>, maxBody: nat, maxLine: nat)
  {
    && BytesOf(chunks) <= maxBody
    && LinesFit(Lines(TextOf(chunks)), maxLine)
    && CutsFit(chunks, maxLine)
  }

  /** Held text over the limit means the body is not acceptable, whatever follows. */
  lemma HeldOverflow(seen: string, r: string, limit: nat)
    requires Bytes(Held(seen)) > limit
    ensures !LinesFit(Lines(seen + r), limit) || !HeldCrFits(seen, limit)
  {
    var h := Held(seen);
    HeldShape(h);
    HeldEnding(seen);
    if EndsInCr(seen) {
      CompleteThenHeld(seen);
    } else {
      UnbrokenStart(h, r);
      LinesResume(seen, r);
      assert Lines(h + r)[0] in Lines(seen + r);
    }
  }

  lemma HeldWithin(seen: string, limit: nat)
    requires Bytes(Held(seen)) <= limit
    ensures HeldCrFits(seen, limit)
    ensures LinesFit(Complete(seen), limit) ==> LinesFit(Lines(seen), limit)
  {
    var h := Held(seen);
    HeldEnding(seen);
    CompleteThenHeld(seen);
    if h != [] {
      HeldShape(h);
    }
  }

  lemma CompletePrefix(seen: string, r: string, limit: nat)
    ensures Complete(seen) <= Lines(seen + r)
    ensures LinesFit(Lines(seen + r), limit) ==> LinesFit(Complete(seen), limit)
  {
    LinesResume(seen, r);
  }

  /** Any of the three checks failing after read `k` means the body is not accepted. */
  lemma Refused(chunks: seq<Chunk>, k: nat, maxBody: nat, maxLine: nat)
    requires 0 < k <= |chunks|
    requires || BytesOf(chunks[..k]) > maxBody
             || !LinesFit(Complete(TextOf(chunks[..k])), maxLine)
             || Bytes(Held(TextOf(chunks[..k]))) > maxLine
    ensures !Accepted(chunks, maxBody, maxLine)
  {
    var seen, r := TextOf(chunks[..k]), RestOf(chunks, k);
    BytesOfPrefix(chunks, k);
    CompletePrefix(seen, r, maxLine);
    if Bytes(Held(seen)) > maxLine {
      HeldOverflow(seen, r, maxLine);
      if Accepted(chunks, maxBody, maxLine) {
        CutsFitAt(chunks, k, maxLine);
      }
    }
  }

  /** The inner loop: takes the certain lines off the pending text, one at a time. */
  method TakeLines(text: string, maxLine: nat)
    returns (lines: seq<string>, pending: string, failed: bool)
    ensures lines <= Complete(text)
    ensures !failed ==> lines == Complete(text) && pending == Held(text)
    ensures failed <==> !LinesFit(Complete(text), maxLine)
  {
    lines, pending, failed := [], text, false;
    while HasLine(pending)
      invariant lines + Complete(pending) == Complete(text)
      invariant Held(pending) == Held(text)
      invariant LinesFit(lines, maxLine)
      decreases |pending|
    {
      var line := pending[..FirstBreak(pending)];
      assert Complete(pending) == [line] + Complete(pending[LineEnd(pending)..]);
      pending := pending[LineEnd(pending)..];
      if Bytes(line) > maxLine {
        assert line in Complete(text);
        return lines, pending, true;
      }
      lines := lines + [line];
    }
  }

  lemma ReadOne(chunks: seq<Chunk>, k: nat)
    requires k < |chunks|
    ensures var t := Held(TextOf(chunks[..k])) + chunks[k].text;
            && Complete(TextOf(chunks[..k + 1])) == Complete(TextOf(chunks[..k])) + Complete(t)
            && Held(TextOf(chunks[..k + 1])) == Held(t)
    ensures BytesOf(chunks[..k + 1]) == BytesOf(chunks[..k]) + chunks[k].bytes
  {
    assert chunks[..k + 1][..k] == chunks[..k];
    Incremental(TextOf(chunks[..k]), chunks[k].text);
  }

  /** Everything taken so far is a prefix of the lines of the whole text. */
  lemma Yielded(chunks: seq<Chunk>, k: nat, more: seq<string>)
    requires k < |chunks|
    requires more <= Complete(Held(TextOf(chunks[..k])) + chunks[k].text)
    ensures Complete(TextOf(chunks[..k])) + more <= Lines(TextOf(chunks))
  {
    ReadOne(chunks, k);
    CompletePrefix(TextOf(chunks[..k + 1]), RestOf(chunks, k + 1), 0);
  }

  lemma CutsFitNext(chunks: seq<Chunk>, k: nat, limit: nat)
    requires k < |chunks| && CutsFit(chunks[..k], limit)
    requires HeldCrFits(TextOf(chunks[..k + 1]), limit)
    ensures CutsFit(chunks[..k + 1], limit)
  {
    assert chunks[..k + 1][..k] == chunks[..k];
  }

  /** What is left at the end of the body: a last line, without the CR that ends it. */
  function LastLine(h: string): seq<string>
  {
    if h == "" then [] else [if EndsInCr(h) then h[..|h| - 1] else h]
  }

  lemma Finished(chunks: seq<Chunk>, maxBody: nat, maxLine: nat)
    requires BytesOf(chunks) <= maxBody
    requires LinesFit(Complete(TextOf(chunks)), maxLine)
    requires Bytes(Held(TextOf(chunks))) <= maxLine
    requires CutsFit(chunks, maxLine)
    ensures Accepted(chunks, maxBody, maxLine)
    ensures var h := Held(TextOf(chunks));
            Lines(TextOf(chunks)) == Complete(TextOf(chunks)) + LastLine(h)
  {
    var h := Held(TextOf(chunks));
    HeldWithin(TextOf(chunks), maxLine);
    CompleteThenHeld(TextOf(chunks));
    if h != "" {
      HeldShape(h);
    }
  }

  /** `_utf8_lines`: yields the lines of the body as the reads arrive. It succeeds
      exactly on accepted bodies and then yields the lines of the whole text,
      however the text was cut; when it fails, what it yielded is a prefix of them. */
  method SplitLines(chunks: seq<Chunk>, maxBody: nat, maxLine: nat)
    returns (lines: seq<string>, failed: bool)
    ensures failed <==> !Accepted(chunks, maxBody, maxLine)
    ensures !failed ==> lines == Lines(TextOf(chunks))
    ensures lines <= Lines(TextOf(chunks))
  {
    lines := [];
    failed := false;
    var pending, total := "", 0;
    for k := 0 to |chunks|
      invariant total == BytesOf(chunks[..k]) <= maxBody
      invariant lines == Complete(TextOf(chunks[..k]))
      invariant pending == Held(TextOf(chunks[..k]))
      invariant LinesFit(lines, maxLine) && Bytes(pending) <= maxLine
      invariant CutsFit(chunks[..k], maxLine)
    {
      ReadOne(chunks, k);
      total := total + chunks[k].bytes;
      var more: seq<string>, over := [], total > maxBody;
      if !over {
        more, pending, over := TakeLines(pending + chunks[k].text, maxLine);
        over := over || Bytes(pending) > maxLine;
      }
      if over {
        Refused(chunks, k + 1, maxBody, maxLine);
        Yielded(chunks, k, more);
        return lines + more, true;
      }
      lines := lines + more;
      HeldWithin(TextOf(chunks[..k + 1]), maxLine);
      CutsFitNext(chunks, k, maxLine);
    }
    assert chunks[..|chunks|] == chunks;
    Finished(chunks, maxBody, maxLine);
    lines := lines + LastLine(pending);
  }

  // ---- which bodies can be cut anywhere ----

  /** Every line that ends in CR or CRLF is strictly below the limit. */
  predicate CrLinesBelow(s: string, limit: nat)
    decreases |s|
  {
    var i := FirstBreak(s);
    i == |s| || ((s[i] == '\r' ==> Bytes(s[..i]) < limit) && CrLinesBelow(s[i + BreakLength(s, i)..], limit))
  }

  /** Every line fits, and those ended by a CR with room to spare. */
  predicate CutProof(s: string, limit: nat) { LinesFit(Lines(s), limit) && CrLinesBelow(s, limit) }

  /** A break, and what may follow it: an LF after a CR would belong to the break. */
  predicate Breaks(b: string, rest: string)
  {
    || (|b| == 1 && IsBreak(b[0]) && (b[0] == '\r' && rest != [] ==> rest[0] != '\n'))
    || (|b| == 2 && b[0] == '\r' && b[1] == '\n')
  }

  lemma LinesCons(l: string, b: string, rest: string)
    requires NoBreak(l) && Breaks(b, rest)
    ensures Lines(l + b + rest) == [l] + Lines(rest)
  {
    var s := l + b + rest;
    assert s[..|l|] == l && s[|l|] == b[0];
    FirstBreakUnique(s, |l|);
    if |l| + 1 < |s| {
      assert s[|l| + 1] == if |b| == 2 then b[1] else rest[0];
    }
    assert s[|l| + |b|..] == rest;
  }

  /** The first line of a text, its break, and the rest. */
  lemma Pieces(s: string) returns (l: string, b: string, rest: string)
    requires FirstBreak(s) < |s|
    ensures s == l + b + rest && NoBreak(l) && Breaks(b, rest)
    ensures l == s[..FirstBreak(s)] && rest == s[FirstBreak(s) + BreakLength(s, FirstBreak(s))..]
    ensures b[0] == s[FirstBreak(s)] && |b| == BreakLength(s, FirstBreak(s))
  {
    var i := FirstBreak(s);
    var e := i + BreakLength(s, i);
    l, b, rest := s[..i], s[i..e], s[e..];
  }

  lemma HeldCrOf(l: string, b: string, rest: string, limit: nat)
    requires NoBreak(l) && Breaks(b, rest) && rest != []
    ensures HeldCrFits(l + b + rest, limit) <==> HeldCrFits(rest, limit)
  {
    var s, ls := l + b + rest, Lines(rest);
    assert Lines(s) == [l] + ls by {
      LinesCons(l, b, rest);
    }
    assert EndsInCr(s) <==> EndsInCr(rest) by {
      assert s[|s| - 1] == rest[|rest| - 1];
    }
    LastOfCons(l, ls);
  }

  lemma LastOfCons(l: string, ls: seq<string>)
    requires ls != []
    ensures ([l] + ls)[|[l] + ls| - 1] == ls[|ls| - 1]
  {
  }

  lemma HeldCrOfOne(l: string, b: string, limit: nat)
    requires NoBreak(l) && Breaks(b, []) && b[0] == '\r' && |b| == 1
    ensures HeldCrFits(l + b, limit) <==> Bytes(l) < limit
  {
    LinesCons(l, b, []);
    assert l + b + [] == l + b && Lines([]) == [];
  }

  lemma HeldInFirstLine(l: string, b: string, rest: string, n: nat, limit: nat)
    requires NoBreak(l) && Breaks(b, rest) && |l| < n <= |l| + |b| && (b[0] == '\r' ==> Bytes(l) < limit)
    ensures HeldCrFits((l + b + rest)[..n], limit)
  {
    hide Lines, Bytes;
    var s := l + b + rest;
    assert s[n - 1] == b[n - 1 - |l|];
    if s[n - 1] == '\r' {
      assert s[..n] == l + b[..1];
      HeldCrOfOne(l, b[..1], limit);
    }
  }

  lemma {:induction false} BelowFitsEverywhere(s: string, n: nat, limit: nat)
    requires CrLinesBelow(s, limit) && n <= |s|
    ensures HeldCrFits(s[..n], limit)
    decreases |s|
  {
    hide Lines, Bytes, FirstBreak;
    if FirstBreak(s) < n {
      var l, b, rest := Pieces(s);
      var e := |l| + |b|;
      if n <= e {
        HeldInFirstLine(l, b, rest, n, limit);
      } else {
        assert s[..n] == l + b + rest[..n - e];
        BelowFitsEverywhere(rest, n - e, limit);
        HeldCrOf(l, b, rest[..n - e], limit);
      }
    } else if n > 0 {
      assert s[n - 1] == s[..FirstBreak(s)][n - 1];
    }
  }

  lemma {:induction false} AtLimitFailsSomewhere(s: string, limit: nat) returns (n: nat)
    requires !CrLinesBelow(s, limit)
    ensures 0 < n <= |s| && !HeldCrFits(s[..n], limit)
    decreases |s|
  {
    var l, b, rest := Pieces(s);
    if b[0] == '\r' && Bytes(l) >= limit {
      n := |l| + 1;
      assert s[..n] == l + b[..1];
      HeldCrOfOne(l, b[..1], limit);
    } else {
      var m := AtLimitFailsSomewhere(rest, limit);
      n := |l| + |b| + m;
      assert s[..n] == l + b + rest[..m];
      HeldCrOf(l, b, rest[..m], limit);
    }
  }

  lemma {:induction false} CutsFitBelow(chunks: seq<Chunk>, k: nat, limit: nat)
    requires k <= |chunks| && CrLinesBelow(TextOf(chunks), limit)
    ensures CutsFit(chunks[..k], limit)
  {
    if k > 0 {
      CutsFitBelow(chunks, k - 1, limit);
      var seen, r := TextOf(chunks[..k]), RestOf(chunks, k);
      assert TextOf(chunks)[..|seen|] == seen;
      BelowFitsEverywhere(TextOf(chunks), |seen|, limit);
      CutsFitNext(chunks, k - 1, limit);
    }
  }

  lemma CutProofIsAccepted(chunks: seq<Chunk>, maxBody: nat, limit: nat)
    requires BytesOf(chunks) <= maxBody && CutProof(TextOf(chunks), limit)
    ensures Accepted(chunks, maxBody, limit)
  {
    CutsFitBelow(chunks, |chunks|, limit);
    assert chunks[..|chunks|] == chunks;
  }

  /** A text as two reads, parted at `n`. */
  function PartedAt(s: string, n: nat): seq<Chunk>
    requires n <= |s|
  {
    [Chunk(Bytes(s[..n]), s[..n]), Chunk(Bytes(s[n..]), s[n..])]
  }

  lemma PartedIsCutting(s: string, n: nat)
    requires n <= |s|
    ensures TextOf(PartedAt(s, n)) == s && BytesOf(PartedAt(s, n)) == Bytes(s)
  {
    var a, b := s[..n], s[n..];
    assert a + b == s;
    assert Bytes(s) == Bytes(a) + Bytes(b) by {
      BytesConcat(a, b);
    }
    TwoReads(Chunk(Bytes(a), a), Chunk(Bytes(b), b), 0);
  }

  lemma SomeCuttingIsRefused(s: string, maxBody: nat, limit: nat) returns (n: nat)
    requires !CutProof(s, limit)
    ensures n <= |s| && !Accepted(PartedAt(s, n), maxBody, limit)
  {
    n := 0;
    if CrLinesBelow(s, limit) {
      PartedIsCutting(s, n);
    } else {
      n := AtLimitFailsSomewhere(s, limit);
      TwoReads(Chunk(Bytes(s[..n]), s[..n]), Chunk(Bytes(s[n..]), s[n..]), limit);
    }
  }

  /** Every way of cutting the body, within the cap, is accepted. */
  ghost predicate AcceptedHoweverCut(s: string, maxBody: nat, limit: nat)
  {
    forall chunks :: TextOf(chunks) == s && BytesOf(chunks) <= maxBody ==> Accepted(chunks, maxBody, limit)
  }

  /** How a body is cut is irrelevant if and only if every line fits the limit and no line
      ended by a CR fills it. */
  lemma CutsAreIrrelevantExactly(s: string, maxBody: nat, limit: nat)
    requires Bytes(s) <= maxBody
    ensures AcceptedHoweverCut(s, maxBody, limit) <==> CutProof(s, limit)
  {
    if CutProof(s, limit) {
      forall chunks | TextOf(chunks) == s && BytesOf(chunks) <= maxBody ensures Accepted(chunks, maxBody, limit) {
        CutProofIsAccepted(chunks, maxBody, limit);
      }
    } else {
      var n := SomeCuttingIsRefused(s, maxBody, limit);
      PartedIsCutting(s, n);
    }
  }

  lemma {:induction false} BelowIsCutProof(s: string, limit: nat)
    requires forall l :: l in Lines(s) ==> Bytes(l) < limit
    ensures CrLinesBelow(s, limit)
    decreases |s|
  {
    var i := FirstBreak(s);
    if i < |s| {
      var rest := s[i + BreakLength(s, i)..];
      assert Lines(s) == [s[..i]] + Lines(rest);
      assert s[..i] in Lines(s);
      BelowIsCutProof(rest, limit);
    }
  }

  /** In particular, with every line below the limit no way of cutting the body is refused. */
  lemma CutsAreIrrelevant(chunks: seq<Chunk>, maxBody: nat, maxLine: nat)
    requires BytesOf(chunks) <= maxBody
    requires forall l :: l in Lines(TextOf(chunks)) ==> Bytes(l) < maxLine
    ensures Accepted(chunks, maxBody, maxLine)
  {
    BelowIsCutProof(TextOf(chunks), maxLine);
    CutProofIsAccepted(chunks, maxBody, maxLine);
  }

  /** At the limit they do matter: for every line of exactly the limit, the body
      made of it and CRLF is accepted in one read ... */
  lemma WholeAcceptedAtLimit(l: string)
    requires NoBreak(l)
    ensures Accepted([Chunk(Bytes(l) + 2, l + "\r\n")], Bytes(l) + 2, Bytes(l))
  {
    OneLine(l, "\r\n");
    OneRead(Chunk(Bytes(l) + 2, l + "\r\n"), Bytes(l));
  }

  /** ... and refused in two reads that part the CR from the LF. */
  lemma CutRefusedAtLimit(l: string)
    requires NoBreak(l)
    ensures var cut := [Chunk(Bytes(l) + 1, l + "\r"), Chunk(1, "\n")];
            && TextOf(cut) == l + "\r" + "\n"
            && BytesOf(cut) == Bytes(l) + 2
            && !Accepted(cut, Bytes(l) + 2, Bytes(l))
  {
    HeldCrAtLimit(l);
    TwoReads(Chunk(Bytes(l) + 1, l + "\r"), Chunk(1, "\n"), Bytes(l));
  }

  lemma OneRead(c: Chunk, limit: nat)
    requires !EndsInCr(c.text) && LinesFit(Lines(c.text), limit)
    ensures Accepted([c], c.bytes, limit)
  {
    assert [c][..0] == [];
    assert TextOf([c]) == c.text;
  }

  lemma TwoReads(c: Chunk, d: Chunk, limit: nat)
    ensures TextOf([c, d]) == c.text + d.text && BytesOf([c, d]) == c.bytes + d.bytes
    ensures CutsFit([c, d], limit) ==> HeldCrFits(c.text, limit)
  {
    var cut := [c, d];
    assert cut[..1] == [c] && [c][..0] == [];
    assert TextOf([c]) == c.text && BytesOf([c]) == c.bytes;
    assert CutsFit(cut, limit) ==> CutsFit([c], limit);
  }

  lemma HeldCrAtLimit(l: string)
    requires NoBreak(l)
    ensures !HeldCrFits(l + "\r", Bytes(l))
  {
    OneLine(l, "\r");
    var ls := Lines(l + "\r");
    assert ls[|ls| - 1] == l;
  }

  lemma OneLine(l: string, b: string)
    requires NoBreak(l) && (b == "\r" || b == "\r\n")
    ensures Lines(l + b) == [l]
  {
    var s := l + b;
    assert s[..|l|] == l;
    FirstBreakUnique(s, |l|);
    assert s[|s|..] == "" && Lines("") == [];
  }
}
