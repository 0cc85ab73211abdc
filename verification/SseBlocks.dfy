/** What the decoder makes of arbitrary lines, block by block: the meaning of a block is read
    off its event and data lines, whatever else stands between them. */
module SseBlocks {
  import opened Text
  import opened SseLines
  import opened SseEvents

  /** The values of a field's lines, in order. A comment line is no field. */
  function Values(lines: seq<string>, field: string): seq<string>
  {
    if lines == [] then []
    else if lines[0] != "" && lines[0][0] != ':' && FieldName(lines[0]) == field
    then [FieldValue(lines[0])] + Values(lines[1..], field)
    else Values(lines[1..], field)
  }

  /** The last event name given, or the default. */
  function NameOf(lines: seq<string>, default: string): string
  {
    var names := Values(lines, "event");
    if names == [] then default else names[|names| - 1]
  }

  /** What a block counts against the limit: its bytes, and one more for each line. */
  function BlockBytes(lines: seq<string>): nat
  {
    if lines == [] then 0 else Bytes(lines[0]) + 1 + BlockBytes(lines[1..])
  }

  predicate NoBlank(lines: seq<string>) { forall l :: l in lines ==> l != "" }

  /** A field name, its value with one leading space removed, and a line without a colon. */
  lemma FieldSyntax(name: string, value: string)
    requires forall k :: 0 <= k < |name| ==> name[k] != ':'
    ensures FieldName(name + [':'] + value) == name
    ensures FieldValue(name + [':'] + value) == if value != [] && value[0] == ' ' then value[1..] else value
    ensures FieldName(name) == name && FieldValue(name) == ""
  {
    var s := name + [':'] + value;
    ColonAt(s, |name|);
    assert s[..|name|] == name && s[|name| + 1..] == value;
    if value != [] {
      assert s[|name| + 1] == value[0] && s[|name| + 2..] == value[1..];
    }
    var i := Colon(name);
    assert i == |name| && name[..i] == name;
  }

  /** Values are joined by line feeds. */
  lemma {:induction false} JoinAppend(data: seq<string>, v: string)
    ensures JoinLines([v]) == v
    ensures data != [] ==> JoinLines(data + [v]) == JoinLines(data) + "\n" + v
    decreases |data|
  {
    if |data| > 1 {
      assert (data + [v])[1..] == data[1..] + [v];
      JoinAppend(data[1..], v);
      assert data[0] + "\n" + (JoinLines(data[1..]) + "\n" + v) == data[0] + "\n" + JoinLines(data[1..]) + "\n" + v;
    } else if |data| == 1 {
      assert (data + [v])[1..] == [v];
    }
  }

  /** A byte order mark before the first line changes nothing, and no other line is touched. */
  lemma BomIsDropped<P>(json: Json<P>, limit: nat, line: string, rest: seq<string>, cutOff: bool)
    requires line == [] || line[0] != '\U{FEFF}'
    ensures Parse(json, limit, Fresh(true), [['\U{FEFF}'] + line] + rest, cutOff)
            == Parse(json, limit, Fresh(false), [line] + rest, cutOff)
    ensures Parse(json, limit, Fresh(true), [line] + rest, cutOff)
            == Parse(json, limit, Fresh(false), [line] + rest, cutOff)
  {
    assert StripBom(['\U{FEFF}'] + line) == line && StripBom(line) == line;
    FirstOnly(json, limit, ['\U{FEFF}'] + line, rest, cutOff);
    FirstOnly(json, limit, line, rest, cutOff);
  }

  lemma FirstOnly<P>(json: Json<P>, limit: nat, line: string, rest: seq<string>, cutOff: bool)
    ensures Parse(json, limit, Fresh(true), [line] + rest, cutOff)
            == Parse(json, limit, Fresh(false), [StripBom(line)] + rest, cutOff)
  {
    hide StripBom, FieldName, FieldValue, JoinLines;
    assert ([line] + rest)[1..] == rest && ([StripBom(line)] + rest)[1..] == rest;
    assert Feed(json, limit, Fresh(true), line) == Feed(json, limit, Fresh(false), StripBom(line));
  }

  /** The state the lines of an unfinished block leave. */
  function Read(st: State, lines: seq<string>): State
  {
    State(NameOf(lines, st.name), st.data + Values(lines, "data"), st.size + BlockBytes(lines), false)
  }

  lemma ReadStep<P>(json: Json<P>, limit: nat, st: State, line: string, rest: seq<string>)
    requires !st.first && line != "" && st.size + Bytes(line) + 1 <= limit
    ensures Feed(json, limit, st, line).Next? && Feed(json, limit, st, line).out == []
    ensures var st' := Feed(json, limit, st, line).st;
            !st'.first && st'.size == st.size + Bytes(line) + 1 && Read(st', rest) == Read(st, [line] + rest)
  {
    hide Bytes;
    var all := [line] + rest;
    assert all[0] == line && all[1..] == rest;
    var st' := Feed(json, limit, st, line).st;
    FieldNamesDiffer();
    assert NameOf(rest, st'.name) == NameOf(all, st.name) by {
      LastName(st, st', line, rest);
    }
    assert st'.data + Values(rest, "data") == st.data + Values(all, "data");
  }

  lemma FieldNamesDiffer()
    ensures "event" != "data"
  {
    assert "event"[0] != "data"[0];
  }

  lemma LastName(st: State, st': State, line: string, rest: seq<string>)
    requires line != ""
    requires st'.name == if line[0] != ':' && FieldName(line) == "event" then FieldValue(line) else st.name
    ensures NameOf(rest, st'.name) == NameOf([line] + rest, st.name)
  {
    hide FieldName, FieldValue;
    var all := [line] + rest;
    assert all[0] == line && all[1..] == rest;
  }

  /** Reading the lines of a block: they are collected, and refused exactly when they are too
      many bytes. */
  lemma {:induction false} ReadBlock<P>(
      json: Json<P>, limit: nat, st: State, lines: seq<string>, rest: seq<string>, cutOff: bool)
    requires !st.first && st.size <= limit && NoBlank(lines)
    ensures Parse(json, limit, st, lines + rest, cutOff)
            == if st.size + BlockBytes(lines) > limit then Outcome([], Some(ResponseLimit))
               else Parse(json, limit, Read(st, lines), rest, cutOff)
    decreases |lines|
  {
    hide Bytes, FieldName, FieldValue, JoinLines;
    if lines == [] {
      assert lines + rest == rest;
      assert Read(st, lines) == st by {
        assert st.data + [] == st.data;
      }
    } else {
      var line, more := lines[0], lines[1..];
      assert lines == [line] + more && (lines + rest)[0] == line && (lines + rest)[1..] == more + rest;
      assert line in lines;
      assert NoBlank(more) by {
        assert forall l :: l in more ==> l in lines;
      }
      if st.size + Bytes(line) + 1 <= limit {
        ReadStep(json, limit, st, line, more);
        var st' := Feed(json, limit, st, line).st;
        ReadBlock(json, limit, st', more, rest, cutOff);
        var o := Parse(json, limit, st', more + rest, cutOff);
        assert [] + o.events == o.events;
      }
    }
  }

  /** What a finished block means. */
  function Decoded<P>(json: Json<P>, name: string, data: seq<string>, following: Outcome<P>): Outcome<P>
  {
    if data == [] then following
    else
      match json.loads(JoinLines(data))
      case None => Outcome([], Some(InvalidSse))
      case Some(p) =>
        if json.event(p) != name then Outcome([], Some(InvalidSse)) else Prepend([Frame(name, p)], following)
  }

  /** Every block that ends in a blank line: too long exactly when its bytes and lines exceed
      the limit, empty exactly when it has no data line, else the one event whose payload
      parses from its data lines, and invalid exactly when that text does not parse or names
      another event than the last event line did. */
  lemma BlockMeans<P>(json: Json<P>, limit: nat, block: seq<string>, rest: seq<string>, cutOff: bool)
    requires NoBlank(block)
    ensures Parse(json, limit, Fresh(false), block + ([""] + rest), cutOff)
            == if BlockBytes(block) + 1 > limit then Outcome([], Some(ResponseLimit))
               else Decoded(json, NameOf(block, "message"), Values(block, "data"),
                            Parse(json, limit, Fresh(false), rest, cutOff))
  {
    hide NameOf, Values, BlockBytes, JoinLines, FieldName, FieldValue;
    ReadBlock(json, limit, Fresh(false), block, [""] + rest, cutOff);
    var st := Read(Fresh(false), block);
    assert [] + Values(block, "data") == Values(block, "data");
    assert ([""] + rest)[0] == "" && ([""] + rest)[1..] == rest;
    BlankBytes();
    var o := Parse(json, limit, Fresh(false), rest, cutOff);
    assert [] + o.events == o.events;
  }

  lemma BlankBytes()
    ensures Bytes("") == 0
  {
  }

  /** The lines after the last blank one: too long, or cut off by their source, or truncated
      exactly when a data line is among them or the last event line is not `message`. */
  lemma TailMeans<P>(json: Json<P>, limit: nat, tail: seq<string>, cutOff: bool)
    requires NoBlank(tail)
    ensures Parse(json, limit, Fresh(false), tail, cutOff)
            == Outcome([], if BlockBytes(tail) > limit || cutOff then Some(ResponseLimit)
                           else if Values(tail, "data") != [] || NameOf(tail, "message") != "message"
                           then Some(TruncatedSse) else None)
  {
    hide NameOf, Values, BlockBytes, FieldName, FieldValue;
    assert tail + [] == tail;
    ReadBlock(json, limit, Fresh(false), tail, [], cutOff);
    assert [] + Values(tail, "data") == Values(tail, "data");
  }

  /** A line that is a comment or of another field. */
  predicate Ignored(line: string)
  {
    line != "" && (line[0] == ':' || (FieldName(line) != "event" && FieldName(line) != "data"))
  }

  lemma {:induction false} IgnoredHasNoValue(a: seq<string>, line: string, b: seq<string>, field: string)
    requires Ignored(line) && (field == "event" || field == "data")
    ensures Values(a + [line] + b, field) == Values(a + b, field)
    decreases |a|
  {
    hide FieldName, FieldValue;
    var longer, without := a + [line] + b, a + b;
    if a == [] {
      assert longer[0] == line && longer[1..] == b && without == b;
    } else {
      assert longer[1..] == a[1..] + [line] + b && without[1..] == a[1..] + b;
      assert longer[0] == a[0] == without[0];
      IgnoredHasNoValue(a[1..], line, b, field);
    }
  }

  /** Dropping an ignored line from a block that fits changes nothing. */
  lemma IgnoredLinesDoNotMatter<P>(
      json: Json<P>, limit: nat, a: seq<string>, line: string, b: seq<string>, rest: seq<string>, cutOff: bool)
    requires NoBlank(a) && NoBlank(b) && Ignored(line)
    requires BlockBytes(a + [line] + b) + 1 <= limit && BlockBytes(a + b) + 1 <= limit
    ensures Parse(json, limit, Fresh(false), (a + [line] + b) + ([""] + rest), cutOff)
            == Parse(json, limit, Fresh(false), (a + b) + ([""] + rest), cutOff)
  {
    hide Values, BlockBytes, FieldName, FieldValue, Parse, Decoded;
    IgnoredHasNoValue(a, line, b, "event");
    IgnoredHasNoValue(a, line, b, "data");
    assert NoBlank(a + [line] + b) && NoBlank(a + b);
    BlockMeans(json, limit, a + [line] + b, rest, cutOff);
    BlockMeans(json, limit, a + b, rest, cutOff);
  }

  /** The next blank line. */
  function FirstBlank(lines: seq<string>): (n: nat)
    ensures n <= |lines| && NoBlank(lines[..n]) && (n < |lines| ==> lines[n] == "")
  {
    if lines == [] || lines[0] == "" then 0
    else
      var n := FirstBlank(lines[1..]);
      assert lines[..n + 1] == [lines[0]] + lines[1..][..n];
      n + 1
  }

  /** The meaning of any lines, block after block. */
  function Meaning<P>(json: Json<P>, limit: nat, lines: seq<string>, cutOff: bool): Outcome<P>
    decreases |lines|
  {
    var n := FirstBlank(lines);
    var block := lines[..n];
    if BlockBytes(block) + (if n < |lines| then 1 else 0) > limit then Outcome([], Some(ResponseLimit))
    else if n < |lines| then
      Decoded(json, NameOf(block, "message"), Values(block, "data"), Meaning(json, limit, lines[n + 1..], cutOff))
    else if cutOff then Outcome([], Some(ResponseLimit))
    else if Values(block, "data") != [] || NameOf(block, "message") != "message" then Outcome([], Some(TruncatedSse))
    else Outcome([], None)
  }

  /** The line-by-line decoder is the block-by-block meaning, on every list of lines. */
  lemma {:induction false} ParseIsMeaning<P>(json: Json<P>, limit: nat, lines: seq<string>, cutOff: bool)
    ensures Parse(json, limit, Fresh(false), lines, cutOff) == Meaning(json, limit, lines, cutOff)
    decreases |lines|
  {
    hide Values, NameOf, BlockBytes, FieldName, FieldValue, Parse, Decoded;
    var n := FirstBlank(lines);
    var block := lines[..n];
    if n < |lines| {
      var rest := lines[n + 1..];
      assert lines == block + ([""] + rest);
      BlockMeans(json, limit, block, rest, cutOff);
      ParseIsMeaning(json, limit, rest, cutOff);
    } else {
      assert block == lines;
      TailMeans(json, limit, lines, cutOff);
    }
  }
}
