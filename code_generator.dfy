/**
  The code generator (src/agents/code_generator.py): one call to the
  code-generation model, whose free-text reply is cut into four named sections
  by fixed labels and fences.
*/
module CodeGenerator {
  import opened Wrappers
  import opened Text

  const PythonFence := "```python"
  const Fence := "```"
  const Bold := "**"
  const BoldExplanation := "**Explanation:**"
  const PlainExplanation := "Explanation:"
  const BoldEstimatedCost := "**Estimated Cost:**"
  const BoldCostEstimate := "**Cost Estimate:**"
  const PlainEstimatedCost := "Estimated Cost:"
  const BoldGotchas := "**Gotchas:**"
  const PlainGotchas := "Gotchas:"

  /** The parsed reply: always exactly these four strings, each possibly empty. */
  datatype Sections = Sections(code: string, explanation: string, costEstimate: string, gotchas: string)

  // ---------------------------------------------------------------------------
  // Choosing the label of each section, as the source writes the choice

  function ExplanationMarker(response: string): (m: Option<string>)
    ensures m.Some? ==> |m.value| > 0 && Contains(response, m.value)
    ensures m.None? <==> !Contains(response, BoldExplanation) && !Contains(response, PlainExplanation)
  {
    if Contains(response, BoldExplanation) || Contains(response, PlainExplanation) then
      Some(if Contains(response, BoldExplanation) then BoldExplanation else PlainExplanation)
    else None
  }

  function CostMarker(response: string): (m: Option<string>)
    ensures m.Some? ==> |m.value| > 0 && Contains(response, m.value)
    ensures m.None? <==> !Contains(response, BoldEstimatedCost) && !Contains(response, PlainEstimatedCost)
                         && !Contains(response, BoldCostEstimate)
  {
    if Contains(response, BoldEstimatedCost) || Contains(response, PlainEstimatedCost)
       || Contains(response, BoldCostEstimate)
    then
      Some(if Contains(response, BoldEstimatedCost) then BoldEstimatedCost
           else if Contains(response, BoldCostEstimate) then BoldCostEstimate
           else PlainEstimatedCost)
    else None
  }

  function GotchasMarker(response: string): (m: Option<string>)
    ensures m.Some? ==> |m.value| > 0 && Contains(response, m.value)
    ensures m.None? <==> !Contains(response, BoldGotchas) && !Contains(response, PlainGotchas)
  {
    if Contains(response, BoldGotchas) || Contains(response, PlainGotchas) then
      Some(if Contains(response, BoldGotchas) then BoldGotchas else PlainGotchas)
    else None
  }

  /** The first of `labels`, in priority order, that occurs in `response`. */
  function FirstPresent(response: string, labels: seq<string>): (m: Option<string>)
    ensures m.Some? ==> m.value in labels && Contains(response, m.value)
    ensures m.Some? ==> exists k :: 0 <= k < |labels| && labels[k] == m.value
                                   && forall j :: 0 <= j < k ==> !Contains(response, labels[j])
    ensures m.None? ==> forall l :: l in labels ==> !Contains(response, l)
  {
    if labels == [] then None
    else if Contains(response, labels[0]) then Some(labels[0])
    else
      var rest := FirstPresent(response, labels[1..]);
      if rest.Some? then
        var k :| 0 <= k < |labels[1..]| && labels[1..][k] == rest.value
                 && forall j :: 0 <= j < k ==> !Contains(response, labels[1..][j]);
        assert labels[k + 1] == rest.value;
        assert forall j :: 0 <= j < k + 1 ==> !Contains(response, labels[j]) by {
          forall j | 0 <= j < k + 1 ensures !Contains(response, labels[j]) {
            if j > 0 { assert labels[j] == labels[1..][j - 1]; }
          }
        }
        rest
      else rest
  }

  const ExplanationLabels := [BoldExplanation, PlainExplanation]
  const CostLabels := [BoldEstimatedCost, BoldCostEstimate, PlainEstimatedCost]
  const GotchasLabels := [BoldGotchas, PlainGotchas]

  /** The source's label choices are a walk down a fixed priority table. */
  lemma MarkersFollowPriority(response: string)
    ensures ExplanationMarker(response) == FirstPresent(response, ExplanationLabels)
    ensures CostMarker(response) == FirstPresent(response, CostLabels)
    ensures GotchasMarker(response) == FirstPresent(response, GotchasLabels)
  {
    assert ExplanationLabels[1..] == [PlainExplanation];
    assert CostLabels[1..] == [BoldCostEstimate, PlainEstimatedCost];
    assert CostLabels[1..][1..] == [PlainEstimatedCost];
    assert GotchasLabels[1..] == [PlainGotchas];
  }

  // ---------------------------------------------------------------------------
  // Cutting the reply

  /** `response.split(marker)[1]`, cut before its first `**` when it has one, stripped. */
  function FieldAfter(response: string, marker: string): (r: string)
    requires |marker| > 0 && Contains(response, marker)
    ensures IsStripped(r)
  {
    var part := Split(response, marker)[1];
    Strip(if Contains(part, Bold) then Split(part, Bold)[0] else part)
  }

  function FieldOf(response: string, marker: Option<string>): (r: string)
    requires marker.Some? ==> |marker.value| > 0 && Contains(response, marker.value)
    ensures IsStripped(r)
    ensures marker.None? ==> r == ""
  {
    match marker
    case Some(m) => FieldAfter(response, m)
    case None => ""
  }

  /** The code inside the first ```` ```python ```` block. */
  function PythonBlock(response: string): (r: string)
    ensures IsStripped(r)
  {
    if Contains(response, PythonFence) then Strip(Split(Split(response, PythonFence)[1], Fence)[0])
    else ""
  }

  /** `CodeGenerator._parse_response`: the four sections of a model reply. */
  function ParseResponse(response: string): (r: Sections)
    ensures IsStripped(r.code) && IsStripped(r.explanation)
    ensures IsStripped(r.costEstimate) && IsStripped(r.gotchas)
    ensures !Contains(response, Fence) ==> r.code == ""
    ensures !Contains(response, BoldExplanation) && !Contains(response, PlainExplanation)
            ==> r.explanation == ""
    ensures (!Contains(response, BoldEstimatedCost) && !Contains(response, BoldCostEstimate)
             && !Contains(response, PlainEstimatedCost)) ==> r.costEstimate == ""
    ensures !Contains(response, BoldGotchas) && !Contains(response, PlainGotchas) ==> r.gotchas == ""
  {
    var code := PythonBlock(response);
    var explanation := FieldOf(response, ExplanationMarker(response));
    var cost := FieldOf(response, CostMarker(response));
    var gotchas := FieldOf(response, GotchasMarker(response));
    if Contains(response, PythonFence) then
      FenceInPythonFence(response);
      Sections(if code == "" then Strip(Split(response, Fence)[1]) else code, explanation, cost, gotchas)
    else
      Sections(if Contains(response, Fence) then Strip(Split(response, Fence)[1]) else code,
               explanation, cost, gotchas)
  }

  lemma FenceInPythonFence(response: string)
    requires Contains(response, PythonFence)
    ensures Contains(response, Fence)
  {
    assert PythonFence[0..3] == Fence;
    ContainsPiece(response, PythonFence, Fence, 0);
  }

  // ---------------------------------------------------------------------------
  // What the parser promises

  /**
    With a single ```` ```python ```` opener, the code is the text between it and
    the next ```` ``` ````, trimmed (when that is not empty).
  */
  lemma CodeFromPythonBlock(response: string)
    requires Contains(response, PythonFence)
    requires !Contains(After(response, PythonFence), PythonFence)
    requires Strip(Before(After(response, PythonFence), Fence)) != ""
    ensures ParseResponse(response).code == Strip(Before(After(response, PythonFence), Fence))
  {
  }

  /** A non-empty ```` ```python ```` block is the code, whatever else the reply holds. */
  lemma CodeIsPythonBlock(response: string)
    ensures PythonBlock(response) != "" ==> ParseResponse(response).code == PythonBlock(response)
  {
  }

  /**
    Without a ```` ```python ```` opener, the code is the text between the first
    two fences, trimmed, language tag included; without any fence it is empty.
  */
  lemma CodeFromFirstFence(response: string)
    requires !Contains(response, PythonFence)
    ensures Contains(response, Fence) ==>
              ParseResponse(response).code == Strip(Before(After(response, Fence), Fence))
    ensures !Contains(response, Fence) ==> ParseResponse(response).code == ""
  {
  }

  /**
    An empty ```` ```python ```` block leaves `code` to the fallback, which
    takes the text between the first two fences: the language tag itself.
  */
  lemma EmptyPythonBlockKeepsTag(w: string)
    requires AllSpace(w)
    ensures ParseResponse(PythonFence + w + Fence).code == "python"
  {
    var tag := "python";
    var r := PythonFence + w + Fence;
    SpaceLacksBackquote(w);
    EmptyPythonBlock(w);
    CodeFallback(r);
    TagFacts();
    RegroupMiddle(Fence, tag, w, Fence);
    BetweenFences(Fence, tag + w);
    StripTrailing(tag, w);
  }

  lemma RegroupMiddle(a: string, b: string, c: string, d: string)
    ensures (a + b) + c + d == a + (b + c) + d
  {
  }

  /** When the python block is empty, the code is the trimmed text between the first two fences. */
  lemma CodeFallback(response: string)
    requires Contains(response, PythonFence) && PythonBlock(response) == ""
    ensures Contains(response, Fence)
    ensures ParseResponse(response).code == Strip(Before(After(response, Fence), Fence))
  {
    FenceInPythonFence(response);
  }

  lemma EmptyPythonBlock(w: string)
    requires AllSpace(w) && '`' !in w
    ensures Contains(PythonFence + w + Fence, PythonFence) && PythonBlock(PythonFence + w + Fence) == ""
  {
    EmptyBlock(PythonFence, w, Fence);
    StripFramed(w, [], []);
    assert w + [] + [] == w;
  }

  lemma TagFacts()
    ensures PythonFence == Fence + "python"
    ensures IsStripped("python") && '`' !in "python"
  {
  }

  lemma SpaceLacksBackquote(w: string)
    requires AllSpace(w)
    ensures '`' !in w
  {
    forall k | 0 <= k < |w| ensures w[k] != '`' { assert IsSpace(w[k]); }
  }

  /** Splitting `o + x + f` at `o` and the rest at `f`, when `x` lacks the common first character. */
  lemma EmptyBlock(o: string, x: string, f: string)
    requires |o| > |f| > 0 && o[0] == f[0] && f[0] !in x
    ensures Contains(o + x + f, o) && Split(Split(o + x + f, o)[1], f)[0] == x
  {
    assert o + x + f == o + (x + f);
    CutAtStart(o, x + f);
    OpenerNotInBody(o, f, x);
    CutAtEnd(x, f);
  }

  /** The text between the first two occurrences of `f` in `f + y + f`, when `y` lacks `f`'s first character. */
  lemma BetweenFences(f: string, y: string)
    requires |f| > 0 && f[0] !in y
    ensures Contains(f + y + f, f) && Before(After(f + y + f, f), f) == y
  {
    assert f + y + f == f + (y + f);
    CutAtStart(f, y + f);
    CutAtEnd(y, f);
  }

  /**
    A labelled section holds the text after its label up to the first `**`
    (or the end), trimmed, when the label occurs once.
  */
  lemma FieldUpToBold(response: string, marker: string)
    requires |marker| > 0 && Contains(response, marker)
    requires !Contains(After(response, marker), marker)
    ensures FieldAfter(response, marker) == Strip(Before(After(response, marker), Bold))
  {
  }

  /** The explanation prefers the bold label over the plain one. */
  lemma ExplanationPrefersBold(response: string)
    ensures Contains(response, BoldExplanation) ==>
              ParseResponse(response).explanation == FieldAfter(response, BoldExplanation)
    ensures !Contains(response, BoldExplanation) && Contains(response, PlainExplanation) ==>
              ParseResponse(response).explanation == FieldAfter(response, PlainExplanation)
  {
  }

  /**
    The cost label priority: `**Estimated Cost:**`, then `**Cost Estimate:**`,
    then `Estimated Cost:`.
  */
  lemma CostLabelPriority(response: string)
    ensures Contains(response, BoldEstimatedCost) ==>
              ParseResponse(response).costEstimate == FieldAfter(response, BoldEstimatedCost)
    ensures !Contains(response, BoldEstimatedCost) && Contains(response, BoldCostEstimate) ==>
              ParseResponse(response).costEstimate == FieldAfter(response, BoldCostEstimate)
    ensures (!Contains(response, BoldEstimatedCost) && !Contains(response, BoldCostEstimate)
             && Contains(response, PlainEstimatedCost)) ==>
              ParseResponse(response).costEstimate == FieldAfter(response, PlainEstimatedCost)
  {
  }

  /** The gotchas prefer the bold label over the plain one. */
  lemma GotchasPreferBold(response: string)
    ensures Contains(response, BoldGotchas) ==>
              ParseResponse(response).gotchas == FieldAfter(response, BoldGotchas)
    ensures !Contains(response, BoldGotchas) && Contains(response, PlainGotchas) ==>
              ParseResponse(response).gotchas == FieldAfter(response, PlainGotchas)
  {
  }

  // ---------------------------------------------------------------------------
  // Generation

  const NoSdkContext := "No specific SDK context provided."
  const NoFrameworkContext := "No specific framework context provided."
  const ErrorPrefix := "# Error generating code: "

  /** The generator's dictionary: the four sections and `success`. */
  datatype CodeResult = CodeResult(sections: Sections, success: bool)

  /** The code-generation model: query, SDK context and framework context in; reply or exception out. */
  type CodeModel = (string, string, string) -> Result<string>

  /** Python's `context or placeholder`: a missing or empty context becomes the placeholder. */
  function ContextOr(context: Option<string>, placeholder: string): (r: string)
    ensures placeholder != "" ==> r != ""
    ensures context.None? || context.value == "" ==> r == placeholder
    ensures context.Some? && context.value != "" ==> r == context.value
  {
    if context.Some? && context.value != "" then context.value else placeholder
  }

  /** `CodeGenerator.generate`. */
  function Generate(query: string, sdkContext: Option<string>, frameworkContext: Option<string>,
                    model: CodeModel): (r: CodeResult)
    ensures var reply := model(query, ContextOr(sdkContext, NoSdkContext),
                               ContextOr(frameworkContext, NoFrameworkContext));
            && (r.success <==> reply.Success?)
            && (reply.Success? ==> r.sections == ParseResponse(reply.value))
            && (reply.Failure? ==> r.sections.code == ErrorPrefix + reply.error
                                   && r.sections.explanation == "" && r.sections.costEstimate == ""
                                   && r.sections.gotchas == "")
  {
    var sdk := ContextOr(sdkContext, NoSdkContext);
    var framework := ContextOr(frameworkContext, NoFrameworkContext);
    match model(query, sdk, framework)
    case Success(raw) => CodeResult(ParseResponse(raw), true)
    case Failure(e) => CodeResult(Sections(ErrorPrefix + e, "", "", ""), false)
  }
}
