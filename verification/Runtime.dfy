/** What the agent loop keeps of its tool calls: summaries of their results, and how often
    each action was seen. */
module Runtime {
  import opened Text
  import opened FinalAnswer
  import opened ToolEvents

  // ---- tool results and their summaries ----

  /** One entry of a search output; members of the wrong type are absent. */
  datatype Item = Item(
    document: Option<string>, version: Option<string>, chunk: Option<string>,
    source: Option<string>, pageStart: Option<int>, pageEnd: Option<int>)

  /** A validated tool output; `results` is absent unless it is a list, and its entries
      that are not mappings are absent too. */
  datatype Output = Output(
    status: Option<string>, errorCode: Option<string>, results: Option<seq<Option<Item>>>)

  /** An execution that returned: the tool asked for and what it gave back. */
  datatype Execution = Execution(tool: string, output: Output)

  /** Text normalisation of the DTO layer: identifiers and source names may be refused. */
  datatype Rules = Rules(
    text: TextRules, strip: string -> string,
    identifier: string -> Option<string>, source: string -> Option<Option<string>>,
    toolName: string -> string, errorCode: string -> Option<string>, status: string -> Option<string>)

  function StatusOf(o: Output): ToolStatus
  {
    if o.status == Some("failure") || o.status == Some("error") then Failure else Success
  }

  function PagesOk(a: Option<int>, b: Option<int>): bool
  {
    (a.Some? ==> a.value >= 1) && (b.Some? ==> b.value >= 1) && (a.Some? && b.Some? ==> a.value <= b.value)
  }

  /** The citation an entry yields, if its identifiers, source and pages are acceptable. */
  function RefOf(rules: Rules, it: Item): Option<Citation>
  {
    if it.document.None? || it.version.None? || it.chunk.None? then None
    else
      var d, v := rules.identifier(it.document.value), rules.identifier(it.version.value);
      var c := rules.identifier(it.chunk.value);
      var src := if it.source.None? then Some(None) else rules.source(it.source.value);
      if d.None? || v.None? || c.None? || src.None? || !PagesOk(it.pageStart, it.pageEnd) then None
      else
        var key := EvidenceKey(d.value, v.value, c.value, src.value, it.pageStart, it.pageEnd);
        Some(Citation(key, Some(RAG_SEARCH), None))
  }

  predicate Searched(e: Execution)
  {
    e.tool == RAG_SEARCH && StatusOf(e.output) == Success && e.output.status == Some("success")
    && e.output.results.Some?
  }

  /** Some entry of this successful search yields the evidence key. */
  predicate Evidences(rules: Rules, e: Execution, key: EvidenceKey)
  {
    && Searched(e)
    && exists i :: 0 <= i < |e.output.results.value| && e.output.results.value[i].Some?
                   && RefOf(rules, e.output.results.value[i].value).Some?
                   && RefOf(rules, e.output.results.value[i].value).value.key == key
  }

  function RefsOf(rules: Rules, items: seq<Option<Item>>): seq<Citation>
  {
    if items == [] then []
    else
      var init, last := RefsOf(rules, items[..|items| - 1]), items[|items| - 1];
      if last.None? || RefOf(rules, last.value).None? then init
      else init + [RefOf(rules, last.value).value]
  }

  /** `_citation_refs_from_tool_result` */
  method CitationRefs(rules: Rules, e: Execution) returns (refs: seq<Citation>)
    ensures refs == Refs(rules, e)
  {
    if !Searched(e) {
      return [];
    }
    refs := [];
    var items := e.output.results.value;
    for k := 0 to |items|
      invariant refs == RefsOf(rules, items[..k])
    {
      assert items[..k + 1][..k] == items[..k];
      if items[k].Some? {
        var ref := RefOf(rules, items[k].value);
        if ref.Some? {
          refs := refs + [ref.value];
        }
      }
    }
    assert items[..|items|] == items;
  }

  function Refs(rules: Rules, e: Execution): seq<Citation>
  {
    if Searched(e) then RefsOf(rules, e.output.results.value) else []
  }

  /** The evidence part of `_summarize_tool_result` */
  function Summary(rules: Rules, e: Execution): Observation
  {
    Observation(rules.toolName(e.tool), StatusOf(e.output), Refs(rules, e),
                if e.output.errorCode.None? then None else rules.errorCode(e.output.errorCode.value),
                if e.output.status.None? then None else rules.status(e.output.status.value))
  }

  /** Whatever a summary mentions was an entry of that successful search. */
  lemma {:induction false} RefsComeFromItems(rules: Rules, items: seq<Option<Item>>, k: nat)
    requires k < |RefsOf(rules, items)|
    ensures exists i :: 0 <= i < |items| && items[i].Some?
                        && RefOf(rules, items[i].value) == Some(RefsOf(rules, items)[k])
    decreases |items|
  {
    var init, last := items[..|items| - 1], items[|items| - 1];
    if k < |RefsOf(rules, init)| {
      RefsComeFromItems(rules, init, k);
      var i :| 0 <= i < |init| && init[i].Some? && RefOf(rules, init[i].value) == Some(RefsOf(rules, init)[k]);
      assert items[i] == init[i];
    }
  }

  lemma MentionIsEvidence(rules: Rules, e: Execution, c: Citation)
    requires Mentions(Summary(rules, e), c)
    ensures Evidences(rules, e, c.key)
  {
    var refs := Refs(rules, e);
    var k :| 0 <= k < |refs| && refs[k].key == c.key;
    RefsComeFromItems(rules, e.output.results.value, k);
  }

  // ---- repeated actions ----

  /** A tool and its canonical arguments; the hash is injective. */
  datatype Action = Action(tool: string, args: string)

  function Times(counts: map<Action, nat>, a: Action): nat { if a in counts then counts[a] else 0 }

  class RepeatedActionDetector {
    const threshold: nat
    var counts: map<Action, nat>

    constructor (threshold: nat)
      ensures this.threshold == threshold && counts == map[]
    {
      this.threshold, counts := threshold, map[];
    }

    method Observe(a: Action) returns (triggered: bool)
      modifies this
      ensures counts == old(counts)[a := Times(old(counts), a) + 1]
      ensures triggered <==> Times(old(counts), a) + 1 >= threshold
    {
      var n := Times(counts, a) + 1;
      counts := counts[a := n];
      triggered := n >= threshold;
    }

    method Snapshot() returns (s: map<Action, nat>)
      ensures s == counts
    {
      s := counts;
    }

    method Restore(s: map<Action, nat>) returns (ok: bool)
      modifies this
      ensures ok <==> forall a :: a in s ==> s[a] >= 1
      ensures counts == if ok then s else old(counts)
    {
      if exists a :: a in s && s[a] < 1 {
        return false;
      }
      counts := s;
      ok := true;
    }
  }

  /** The counts are exactly the multiset of observed actions. */
  ghost predicate Tallies(counts: map<Action, nat>, seen: multiset<Action>)
  {
    && (forall a :: Times(counts, a) == seen[a])
    && (forall a :: a in counts ==> counts[a] >= 1)
  }

  ghost function SumOf(counts: map<Action, nat>): nat
    decreases |counts|
  {
    if counts == map[] then 0
    else
      var a :| a in counts;
      counts[a] + SumOf(counts - {a})
  }

  lemma {:induction false} TallySum(counts: map<Action, nat>, seen: multiset<Action>)
    requires Tallies(counts, seen)
    ensures SumOf(counts) == |seen|
    decreases |counts|
  {
    if counts == map[] {
      assert forall a :: Times(counts, a) == seen[a];
      assert seen == multiset{};
    } else {
      var a :| a in counts && SumOf(counts) == counts[a] + SumOf(counts - {a});
      var rest := seen[a := 0];
      assert Times(counts, a) == seen[a];
      forall b ensures Times(counts - {a}, b) == rest[b] {
        assert Times(counts, b) == seen[b];
      }
      TallySum(counts - {a}, rest);
    }
  }

  // ---- no evidence is lost ----

  /** A well-formed entry yields a reference, and only such an entry: each of its members goes
      where it belongs. */
  lemma EntryYields(rules: Rules, it: Item)
    ensures var pagesOk := (it.pageStart.Some? ==> it.pageStart.value >= 1)
                           && (it.pageEnd.Some? ==> it.pageEnd.value >= 1)
                           && (it.pageStart.Some? && it.pageEnd.Some? ==> it.pageStart.value <= it.pageEnd.value);
            RefOf(rules, it).Some? <==>
              && it.document.Some? && rules.identifier(it.document.value).Some?
              && it.version.Some? && rules.identifier(it.version.value).Some?
              && it.chunk.Some? && rules.identifier(it.chunk.value).Some?
              && (it.source.Some? ==> rules.source(it.source.value).Some?) && pagesOk
    ensures RefOf(rules, it).Some? ==>
              var c := RefOf(rules, it).value;
              && Some(c.key.document) == rules.identifier(it.document.value)
              && Some(c.key.version) == rules.identifier(it.version.value)
              && Some(c.key.chunk) == rules.identifier(it.chunk.value)
              && (it.source.None? ==> c.key.source.None?)
              && (it.source.Some? ==> Some(c.key.source) == rules.source(it.source.value))
              && c.key.pageStart == it.pageStart && c.key.pageEnd == it.pageEnd
              && c.toolName == Some("rag_search") && c.index.None?
  {
  }

  /** The references of a list are those of its entries, in order. */
  lemma {:induction false} RefsConcat(rules: Rules, a: seq<Option<Item>>, b: seq<Option<Item>>)
    ensures RefsOf(rules, a + b) == RefsOf(rules, a) + RefsOf(rules, b)
    decreases |b|
  {
    hide RefOf;
    if b == [] {
      assert a + b == a;
    } else {
      assert (a + b)[..|a + b| - 1] == a + b[..|b| - 1];
      RefsConcat(rules, a, b[..|b| - 1]);
    }
  }

  lemma RefsOfOne(rules: Rules, x: Option<Item>)
    ensures RefsOf(rules, [x]) == if x.Some? && RefOf(rules, x.value).Some? then [RefOf(rules, x.value).value] else []
  {
    hide RefOf;
    assert [x][..0] == [];
    assert RefsOf(rules, []) == [];
  }

  /** What a successful search returned can be cited: its summary mentions every evidence key,
      and counts as evidence unless a name or code of its output is rewritten. */
  lemma EvidenceIsMentioned(rules: Rules, e: Execution, key: EvidenceKey)
    requires Evidences(rules, e, key)
    ensures exists k :: 0 <= k < |Summary(rules, e).refs| && Summary(rules, e).refs[k].key == key
    ensures (&& rules.toolName("rag_search") == "rag_search" && rules.status("success") == Some("success")
             && e.output.errorCode.None?) ==> Usable(Summary(rules, e))
  {
    hide RefOf;
    var items := e.output.results.value;
    var i :| 0 <= i < |items| && items[i].Some? && RefOf(rules, items[i].value).Some?
             && RefOf(rules, items[i].value).value.key == key;
    assert items == items[..i] + ([items[i]] + items[i + 1..]);
    RefsConcat(rules, items[..i], [items[i]] + items[i + 1..]);
    RefsConcat(rules, [items[i]], items[i + 1..]);
    RefsOfOne(rules, items[i]);
    var k := |RefsOf(rules, items[..i])|;
    assert Summary(rules, e).refs[k].key == key;
  }
}
