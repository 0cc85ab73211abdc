/** Citations, observations and the strict final-answer validator. */
module FinalAnswer {
  import opened Text

  const RAG_SEARCH := "rag_search"

  datatype EvidenceKey = EvidenceKey(
    document: string, version: string, chunk: string, source: Option<string>,
    pageStart: Option<int>, pageEnd: Option<int>)

  datatype Citation = Citation(key: EvidenceKey, toolName: Option<string>, index: Option<nat>)

  datatype ToolStatus = Success | Failure

  datatype Observation = Observation(
    toolName: string, status: ToolStatus, refs: seq<Citation>,
    errorCode: Option<string>, resultStatus: Option<string>)

  /** A successful search observation: the only kind that can carry evidence. */
  predicate Usable(o: Observation)
  {
    && o.toolName == RAG_SEARCH && o.status == Success && o.errorCode.None?
    && (o.resultStatus.None? || o.resultStatus.value == "success")
  }

  predicate Mentions(o: Observation, c: Citation)
  {
    exists i :: 0 <= i < |o.refs| && o.refs[i].key == c.key
  }

  /** `_citation_is_supported` */
  predicate Supported(c: Citation, obs: seq<Observation>)
  {
    && (c.toolName.None? || c.toolName.value == RAG_SEARCH)
    && if c.index.Some?
       then c.index.value < |obs| && Usable(obs[c.index.value]) && Mentions(obs[c.index.value], c)
       else exists i :: 0 <= i < |obs| && Usable(obs[i]) && Mentions(obs[i], c)
  }

  /** A citation that points at, or also appears in, an observation that failed. */
  predicate FailedReference(c: Citation, obs: seq<Observation>)
  {
    if c.index.Some? then c.index.value >= |obs| || !Usable(obs[c.index.value])
    else exists i :: 0 <= i < |obs| && Mentions(obs[i], c) && !Usable(obs[i])
  }

  function CountFailed(cs: seq<Citation>, obs: seq<Observation>): (n: nat)
    ensures n == 0 <==> forall i :: 0 <= i < |cs| ==> !FailedReference(cs[i], obs)
  {
    if cs == [] then 0
    else
      var init := cs[..|cs| - 1];
      assert forall i :: 0 <= i < |cs| ==> if i < |init| then cs[i] == init[i] else cs[i] == cs[|cs| - 1];
      CountFailed(init, obs) + if FailedReference(cs[|cs| - 1], obs) then 1 else 0
  }

  /** `_failed_tool_reference_count` */
  method FailedToolReferenceCount(cs: seq<Citation>, obs: seq<Observation>) returns (count: nat)
    ensures count == CountFailed(cs, obs)
  {
    count := 0;
    for k := 0 to |cs|
      invariant count == CountFailed(cs[..k], obs)
    {
      var c := cs[k];
      assert cs[..k + 1][..k] == cs[..k];
      var failed;
      if c.index.None? {
        failed := AnyFailedMention(c, obs);
      } else if c.index.value >= |obs| {
        failed := true;
      } else {
        failed := !Usable(obs[c.index.value]);
      }
      if failed {
        count := count + 1;
      }
    }
    assert cs[..|cs|] == cs;
  }

  method AnyFailedMention(c: Citation, obs: seq<Observation>) returns (yes: bool)
    ensures yes <==> exists i :: 0 <= i < |obs| && Mentions(obs[i], c) && !Usable(obs[i])
  {
    for i := 0 to |obs|
      invariant forall j :: 0 <= j < i ==> !(Mentions(obs[j], c) && !Usable(obs[j]))
    {
      if Mentions(obs[i], c) && !Usable(obs[i]) {
        return true;
      }
    }
    yes := false;
  }

  /** Text judgements the validator makes on the answer itself. */
  datatype TextRules = TextRules(blank: string -> bool, sourceLike: string -> bool)

  datatype Rejection = ValidationFailed | UnsupportedCitation | FailedToolReference

  datatype Validation = Valid(answer: string, citations: seq<Citation>) | Invalid(error: Rejection)

  /** `StrictFinalAnswerValidator._validate` */
  method Validate(rules: TextRules, answer: string, cs: seq<Citation>, obs: seq<Observation>)
    returns (v: Validation)
    ensures v == ValidationOf(rules, answer, cs, obs)
  {
    if rules.blank(answer) {
      return Invalid(ValidationFailed);
    }
    if cs == [] && rules.sourceLike(answer) {
      return Invalid(UnsupportedCitation);
    }
    var failed := FailedToolReferenceCount(cs, obs);
    var unsupported := 0;
    for k := 0 to |cs|
      invariant unsupported == 0 <==> forall i :: 0 <= i < k ==> Supported(cs[i], obs)
      invariant 0 <= unsupported
    {
      if !Supported(cs[k], obs) {
        unsupported := unsupported + 1;
      }
    }
    if failed > 0 {
      return Invalid(FailedToolReference);
    }
    if unsupported > 0 {
      return Invalid(UnsupportedCitation);
    }
    v := Valid(answer, cs);
  }

  function ValidationOf(rules: TextRules, answer: string, cs: seq<Citation>, obs: seq<Observation>): Validation
  {
    if rules.blank(answer) then Invalid(ValidationFailed)
    else if cs == [] && rules.sourceLike(answer) then Invalid(UnsupportedCitation)
    else if exists i :: 0 <= i < |cs| && FailedReference(cs[i], obs) then Invalid(FailedToolReference)
    else if exists i :: 0 <= i < |cs| && !Supported(cs[i], obs) then Invalid(UnsupportedCitation)
    else Valid(answer, cs)
  }

  /** A citation is grounded when some usable observation carries its evidence, it claims
      no other tool, and nothing it refers to failed. */
  predicate Grounded(c: Citation, obs: seq<Observation>)
  {
    && (c.toolName.None? || c.toolName.value == RAG_SEARCH)
    && (exists i :: 0 <= i < |obs| && Refers(c, i) && Usable(obs[i]) && Mentions(obs[i], c))
    && (forall i :: 0 <= i < |obs| && Refers(c, i) && Mentions(obs[i], c) ==> Usable(obs[i]))
  }

  predicate Refers(c: Citation, i: nat) { c.index.None? || c.index.value == i }

  /** The validator accepts exactly the answers that say something and whose every
      citation is grounded, and passes them on unchanged. */
  lemma ValidExactlyWhenGrounded(rules: TextRules, answer: string, cs: seq<Citation>, obs: seq<Observation>)
    ensures ValidationOf(rules, answer, cs, obs) == Valid(answer, cs) <==>
            && !rules.blank(answer)
            && (cs == [] ==> !rules.sourceLike(answer))
            && forall i :: 0 <= i < |cs| ==> Grounded(cs[i], obs)
    ensures ValidationOf(rules, answer, cs, obs).Valid? ==> ValidationOf(rules, answer, cs, obs) == Valid(answer, cs)
  {
    forall i | 0 <= i < |cs|
      ensures Grounded(cs[i], obs) <==> Supported(cs[i], obs) && !FailedReference(cs[i], obs)
    {
      GroundedSplits(cs[i], obs);
    }
  }

  lemma GroundedSplits(c: Citation, obs: seq<Observation>)
    ensures Grounded(c, obs) <==> Supported(c, obs) && !FailedReference(c, obs)
  {
    if c.index.Some? && c.index.value < |obs| {
      assert Refers(c, c.index.value);
    }
    if c.index.None? {
      assert forall i: nat :: Refers(c, i);
    }
  }

  /** Why an answer is rejected: it says nothing, or it reads like a quotation without citing,
      or a citation refers to something that failed, or one has no support; in that order. */
  lemma RejectedFor(rules: TextRules, answer: string, cs: seq<Citation>, obs: seq<Observation>)
    ensures var v := ValidationOf(rules, answer, cs, obs);
            var quotes := cs == [] && rules.sourceLike(answer);
            var failed := exists i :: 0 <= i < |cs| && FailedReference(cs[i], obs);
            && (v == Invalid(ValidationFailed) <==> rules.blank(answer))
            && (v == Invalid(FailedToolReference) <==> !rules.blank(answer) && !quotes && failed)
            && (v == Invalid(UnsupportedCitation) <==>
                  !rules.blank(answer) && (quotes || (!failed && exists i :: 0 <= i < |cs| && !Supported(cs[i], obs))))
  {
  }
}
