/**
  The chat orchestrator (src/agents/orchestrator.py): classify the question's
  intent with a model, run the specialists the intent asks for in a fixed
  order, and compose their answers into one Markdown reply. Every model and
  service is a parameter; what is modelled is the fence stripping, the
  fallback intent, the routing, the composition and the error boundary.
*/
module Orchestrator {
  import opened Wrappers
  import opened Text
  import opened Json
  import opened CodeGenerator
  import SdkAgent
  import FrameworkRouter
  import TavilySearch

  // ---------------------------------------------------------------------------
  // The services the orchestrator talks to

  /**
    Everything outside the core: the intent model (question in, reply out),
    `json.loads` (text in, value or parse error out), the SDK agent's vector
    store and model, the search service, the specialists' model and the code
    model.
  */
  datatype Services = Services(
    intentModel: string -> Result<string>,
    parseJson: string -> Option<Json>,
    store: SdkAgent.VectorStore,
    sdkModel: SdkAgent.AnswerModel,
    searchClient: TavilySearch.SearchClient,
    specialistModel: FrameworkRouter.SpecialistModel,
    codeModel: CodeModel)

  /** The `agent_responses` dictionary: which specialists ran, and what each returned. */
  datatype AgentResponses = AgentResponses(sdk: Option<SdkAgent.SdkResult>,
                                           framework: Option<FrameworkRouter.FrameworkResult>,
                                           code: Option<CodeResult>)
  {
    /** `len(agent_responses)`. */
    function Count(): (n: nat)
      ensures n <= 3
      ensures n == 0 <==> sdk.None? && framework.None? && code.None?
    {
      (if sdk.Some? then 1 else 0) + (if framework.Some? then 1 else 0) + (if code.Some? then 1 else 0)
    }
  }

  const NoResponses := AgentResponses(None, None, None)

  // ---------------------------------------------------------------------------
  // Intent classification

  const JsonFence := "```json"

  lemma FenceInJsonFence(text: string)
    requires Contains(text, JsonFence)
    ensures Contains(text, Fence)
  {
    assert JsonFence[0..3] == Fence;
    ContainsPiece(text, JsonFence, Fence, 0);
  }

  /**
    The fence removal of `_classify_intent`: the text of the first fenced block
    (a ```` ```json ```` opener preferred), stripped, or the input unchanged
    when it has no fence. At most one fence pair is removed, and none is left.
  */
  function StripFence(text: string): (r: string)
    ensures !Contains(text, Fence) ==> r == text
    ensures Contains(text, Fence) ==> IsStripped(r) && !Contains(r, Fence)
    ensures Contains(text, JsonFence) && !Contains(After(text, JsonFence), JsonFence) ==>
              r == Strip(Before(After(text, JsonFence), Fence))
    ensures !Contains(text, JsonFence) && Contains(text, Fence) ==>
              r == Strip(Before(After(text, Fence), Fence))
  {
    if Contains(text, JsonFence) then
      FenceInJsonFence(text);
      var inner := Split(Split(text, JsonFence)[1], Fence)[0];
      StripKeepsAbsent(inner, Fence);
      Strip(inner)
    else if Contains(text, Fence) then
      var inner := Split(Split(text, Fence)[1], Fence)[0];
      StripKeepsAbsent(inner, Fence);
      Strip(inner)
    else text
  }

  /** The intent used whenever classification fails: ask the SDK agent only. */
  const DefaultIntent := JObject(map[
    "needs_sdk" := JBool(true),
    "needs_framework" := JBool(false),
    "needs_code" := JBool(false),
    "framework_name" := JNull])

  /**
    `ChatOrchestrator._classify_intent`: the model's reply, stripped and
    unfenced, parsed as JSON; any failure gives the default intent, and a
    parsed value is returned as it is, whatever keys it has.
  */
  function ClassifyIntent(query: string, services: Services): (intent: Json)
    ensures services.intentModel(query).Failure? ==> intent == DefaultIntent
    ensures services.intentModel(query).Success? ==>
              var parsed := services.parseJson(StripFence(Strip(services.intentModel(query).value)));
              && (parsed.None? ==> intent == DefaultIntent)
              && (parsed.Some? ==> intent == parsed.value)
  {
    match services.intentModel(query)
    case Failure(_) => DefaultIntent
    case Success(reply) =>
      match services.parseJson(StripFence(Strip(reply)))
      case None => DefaultIntent
      case Some(v) => v
  }

  /** A text that is one ```` ```json ```` block loses exactly its two fences. */
  lemma UnwrapJsonBlock(x: string)
    requires '`' !in x
    ensures StripFence(JsonFence + x + Fence) == Strip(x)
  {
    assert |JsonFence| > |Fence| && JsonFence[0] == Fence[0] == '`';
    BlockInner(JsonFence, Fence, x);
  }

  /**
    Opener `o`, body `x`, closer `f` (shorter than `o`, same first character,
    which `x` lacks): the opener occurs once and the body runs to the closer.
  */
  lemma BlockInner(o: string, f: string, x: string)
    requires |o| > |f| > 0 && o[0] == f[0] && f[0] !in x
    ensures Contains(o + x + f, o) && !Contains(After(o + x + f, o), o)
    ensures Before(After(o + x + f, o), f) == x
  {
    assert o + x + f == o + (x + f);
    CutAtStart(o, x + f);
    CutAtEnd(x, f);
    OpenerNotInBody(o, f, x);
  }

  /** Whitespace holds no backquote. */
  lemma NoBackquoteAround(w1: string, body: string, w2: string)
    requires AllSpace(w1) && AllSpace(w2) && '`' !in body
    ensures '`' !in w1 + body + w2
  {
    var x := w1 + body + w2;
    forall i | 0 <= i < |x| ensures x[i] != '`' {
      if i < |w1| {
        assert IsSpace(w1[i]);
      } else if i < |w1| + |body| {
        assert x[i] == body[i - |w1|];
      } else {
        assert IsSpace(w2[i - |w1| - |body|]);
      }
    }
  }

  /**
    A reply that is one ```` ```json ```` block is unwrapped: the parser sees
    the block's body without the surrounding whitespace.
  */
  lemma FencedReplyIsUnwrapped(query: string, services: Services, w1: string, body: string, w2: string)
    requires AllSpace(w1) && AllSpace(w2) && IsStripped(body) && '`' !in body
    requires services.intentModel(query) == Success(JsonFence + (w1 + body + w2) + Fence)
    ensures ClassifyIntent(query, services) == services.parseJson(body).GetOr(DefaultIntent)
  {
    FencedBody(w1, body, w2);
  }

  /** The text the parser sees for a fenced reply: the block's stripped body. */
  lemma FencedBody(w1: string, body: string, w2: string)
    requires AllSpace(w1) && AllSpace(w2) && IsStripped(body) && '`' !in body
    ensures StripFence(Strip(JsonFence + (w1 + body + w2) + Fence)) == body
  {
    var x := w1 + body + w2;
    var reply := JsonFence + x + Fence;
    assert IsStripped(reply) by {
      assert reply[0] == '`' && reply[|reply| - 1] == '`';
    }
    assert [] + reply + [] == reply;
    StripFramed([], reply, []);
    NoBackquoteAround(w1, body, w2);
    UnwrapJsonBlock(x);
    StripFramed(w1, body, w2);
  }

  // ---------------------------------------------------------------------------
  // Routing

  /** `intent.get(key, False)`, tested for truth, on a dictionary intent. */
  predicate Flag(fields: map<string, Json>, key: string) {
    Truthy(Get(fields, key, JBool(false)))
  }

  /** The context handed to the code generator: an agent's answer when it is non-empty, or `None`. */
  function AnswerContext(answer: Option<string>): (c: Option<string>)
    ensures c.Some? <==> answer.Some? && answer.value != ""
    ensures c.Some? ==> c.value == answer.value
  {
    if answer.Some? && answer.value != "" then answer else None
  }

  /** The SDK agent's answer as context, when the agent ran. */
  function SdkContext(sdk: Option<SdkAgent.SdkResult>): (c: Option<string>)
    ensures c.Some? <==> sdk.Some? && sdk.value.answer != ""
    ensures c.Some? ==> c.value == sdk.value.answer
  {
    AnswerContext(if sdk.Some? then Some(sdk.value.answer) else None)
  }

  /** The framework specialist's answer as context, when it ran. */
  function FrameworkContext(framework: Option<FrameworkRouter.FrameworkResult>): (c: Option<string>)
    ensures c.Some? <==> framework.Some? && framework.value.answer != ""
    ensures c.Some? ==> c.value == framework.value.answer
  {
    AnswerContext(if framework.Some? then Some(framework.value.answer) else None)
  }

  function SdkStep(query: string, fields: map<string, Json>, services: Services): Option<SdkAgent.SdkResult> {
    if Flag(fields, "needs_sdk") then Some(SdkAgent.Query(query, services.store, services.sdkModel)) else None
  }

  function FrameworkStep(query: string, fields: map<string, Json>, services: Services)
    : Result<Option<FrameworkRouter.FrameworkResult>>
  {
    if Flag(fields, "needs_framework") then
      match FrameworkRouter.RouterQuery(query, Get(fields, "framework_name", JNull),
                                        services.searchClient, services.specialistModel)
      case Failure(e) => Failure(e)
      case Success(result) => Success(Some(result))
    else Success(None)
  }

  /** The responses `_route_to_agents` collects, or the exception it raises. */
  function Routed(query: string, intent: Json, services: Services): Result<AgentResponses> {
    if !intent.JObject? then Failure(NoAttribute(intent, "get"))
    else
      var sdk := SdkStep(query, intent.fields, services);
      match FrameworkStep(query, intent.fields, services)
      case Failure(e) => Failure(e)
      case Success(framework) =>
        var code := if Flag(intent.fields, "needs_code")
                    then Some(Generate(query, SdkContext(sdk), FrameworkContext(framework), services.codeModel))
                    else None;
        Success(AgentResponses(sdk, framework, code))
  }

  /** `ChatOrchestrator._route_to_agents`. */
  method RouteToAgents(query: string, intent: Json, services: Services) returns (r: Result<AgentResponses>)
    ensures r == Routed(query, intent, services)
  {
    if !intent.JObject? {
      return Failure(NoAttribute(intent, "get"));
    }
    var responses := NoResponses;
    if Flag(intent.fields, "needs_sdk") {
      var sdkResponse := SdkAgent.Query(query, services.store, services.sdkModel);
      responses := responses.(sdk := Some(sdkResponse));
    }
    if Flag(intent.fields, "needs_framework") {
      var frameworkName := Get(intent.fields, "framework_name", JNull);
      var frameworkResponse := FrameworkRouter.RouterQuery(query, frameworkName, services.searchClient,
                                                           services.specialistModel);
      if frameworkResponse.Failure? {
        return Failure(frameworkResponse.error);
      }
      responses := responses.(framework := Some(frameworkResponse.value));
    }
    if Flag(intent.fields, "needs_code") {
      var sdkContext := SdkContext(responses.sdk);
      var frameworkContext := FrameworkContext(responses.framework);
      var codeResponse := Generate(query, sdkContext, frameworkContext, services.codeModel);
      responses := responses.(code := Some(codeResponse));
    }
    r := Success(responses);
  }

  /**
    A specialist runs exactly when its flag is true (absent flags are false),
    the framework name is routed as given, and the code generator runs last on
    the answers of the other two, or `None` for each that did not run or
    answered with an empty string.
  */
  lemma RoutingFollowsFlags(query: string, fields: map<string, Json>, services: Services)
    requires Routed(query, JObject(fields), services).Success?
    ensures var a := Routed(query, JObject(fields), services).value;
            && (a.sdk.Some? <==> Flag(fields, "needs_sdk"))
            && (a.sdk.Some? ==> a.sdk.value == SdkAgent.Query(query, services.store, services.sdkModel))
            && (a.framework.Some? <==> Flag(fields, "needs_framework"))
            && (a.framework.Some? ==>
                  FrameworkRouter.RouterQuery(query, Get(fields, "framework_name", JNull),
                                              services.searchClient, services.specialistModel)
                  == Success(a.framework.value))
            && (a.code.Some? <==> Flag(fields, "needs_code"))
            && (a.code.Some? ==>
                  a.code.value == Generate(query, SdkContext(a.sdk), FrameworkContext(a.framework),
                                           services.codeModel))
  {
  }

  /** Routing fails only on a non-dictionary intent or on a framework name `.lower()` rejects. */
  lemma RoutingFailures(query: string, intent: Json, services: Services)
    ensures Routed(query, intent, services).Failure? <==>
              || !intent.JObject?
              || (Flag(intent.fields, "needs_framework")
                  && FrameworkRouter.RouterKey(Get(intent.fields, "framework_name", JNull)).Failure?)
  {
  }

  /** An intent with no true flag runs no specialist. */
  lemma NoFlagsNoResponses(query: string, fields: map<string, Json>, services: Services)
    requires !Flag(fields, "needs_sdk") && !Flag(fields, "needs_framework") && !Flag(fields, "needs_code")
    ensures Routed(query, JObject(fields), services) == Success(NoResponses)
  {
  }

  // ---------------------------------------------------------------------------
  // Formatting the code generator's answer

  const CodeOpener := PythonFence + "\n"
  const CodeCloser := "\n" + Fence + "\n\n"

  function CodeBlock(code: string): string {
    if code != "" then CodeOpener + code + CodeCloser else ""
  }

  /** A labelled paragraph, omitted when its text is empty. */
  function Paragraph(heading: string, text: string): string {
    if text != "" then heading + "\n" + text + "\n\n" else ""
  }

  /** `ChatOrchestrator._format_code_response`. */
  function FormatCodeResponse(s: Sections): (r: string)
    ensures r == "" <==> s.code == "" && s.explanation == "" && s.costEstimate == "" && s.gotchas == ""
  {
    CodeBlock(s.code)
    + Paragraph(BoldExplanation, s.explanation)
    + Paragraph(BoldEstimatedCost, s.costEstimate)
    + Paragraph(BoldGotchas, s.gotchas)
  }

  // ---------------------------------------------------------------------------
  // Sources

  const SdkSourcesHeader := "**SDK Documentation Sources:**\n"
  const FrameworkSourcesHeader := "**Framework Sources:**\n"

  /** Each kind of source is listed at most this many times. */
  const MaxSourcesPerKind: nat := 3

  function Min(a: nat, b: nat): nat {
    if a <= b then a else b
  }

  function SdkSourceLine(i: nat, s: SdkAgent.DocSource): string {
    NatToString(i) + ". Page " + s.page + "\n"
  }

  function FrameworkSourceLine(i: nat, s: FrameworkRouter.WebSource): string {
    NatToString(i) + ". [" + s.title + "](" + s.url + ")\n"
  }

  /** The lines for the first three SDK sources, numbered from 1 in order. */
  function SdkSourceLines(sources: seq<SdkAgent.DocSource>): (lines: seq<string>)
    ensures |lines| == Min(MaxSourcesPerKind, |sources|)
    ensures forall k :: 0 <= k < |lines| ==> lines[k] == SdkSourceLine(k + 1, sources[k])
  {
    seq(Min(MaxSourcesPerKind, |sources|), k requires 0 <= k < Min(MaxSourcesPerKind, |sources|)
                                             => SdkSourceLine(k + 1, sources[k]))
  }

  function FrameworkSourceLines(sources: seq<FrameworkRouter.WebSource>): (lines: seq<string>)
    ensures |lines| == Min(MaxSourcesPerKind, |sources|)
    ensures forall k :: 0 <= k < |lines| ==> lines[k] == FrameworkSourceLine(k + 1, sources[k])
  {
    seq(Min(MaxSourcesPerKind, |sources|), k requires 0 <= k < Min(MaxSourcesPerKind, |sources|)
                                             => FrameworkSourceLine(k + 1, sources[k]))
  }

  function SdkSources(responses: AgentResponses): seq<SdkAgent.DocSource> {
    if responses.sdk.Some? then responses.sdk.value.sources else []
  }

  function FrameworkSources(responses: AgentResponses): seq<FrameworkRouter.WebSource> {
    if responses.framework.Some? then responses.framework.value.sources else []
  }

  function SdkSourcesSection(sources: seq<SdkAgent.DocSource>): string {
    if sources == [] then "" else SdkSourcesHeader + Concat(SdkSourceLines(sources)) + "\n"
  }

  function FrameworkSourcesSection(sources: seq<FrameworkRouter.WebSource>): string {
    if sources == [] then "" else FrameworkSourcesHeader + Concat(FrameworkSourceLines(sources)) + "\n"
  }

  /** What `_add_sources` returns. */
  function SourcesText(responses: AgentResponses): string {
    SdkSourcesSection(SdkSources(responses)) + FrameworkSourcesSection(FrameworkSources(responses))
  }

  /** The SDK half of `_add_sources`. */
  method ListSdkSources(sources: seq<SdkAgent.DocSource>) returns (text: string)
    ensures text == SdkSourcesSection(sources)
  {
    if sources == [] {
      return "";
    }
    var lines := SdkSourceLines(sources);
    text := SdkSourcesHeader;
    var i := 0;
    while i < |lines|
      invariant 0 <= i <= |lines|
      invariant text == SdkSourcesHeader + Concat(lines[..i])
    {
      AppendStep(SdkSourcesHeader, lines, i);
      text := text + lines[i];
      i := i + 1;
    }
    assert lines[..i] == lines;
    text := text + "\n";
  }

  /** The framework half of `_add_sources`. */
  method ListFrameworkSources(sources: seq<FrameworkRouter.WebSource>) returns (text: string)
    ensures text == FrameworkSourcesSection(sources)
  {
    if sources == [] {
      return "";
    }
    var lines := FrameworkSourceLines(sources);
    text := FrameworkSourcesHeader;
    var i := 0;
    while i < |lines|
      invariant 0 <= i <= |lines|
      invariant text == FrameworkSourcesHeader + Concat(lines[..i])
    {
      AppendStep(FrameworkSourcesHeader, lines, i);
      text := text + lines[i];
      i := i + 1;
    }
    assert lines[..i] == lines;
    text := text + "\n";
  }

  /** `ChatOrchestrator._add_sources`. */
  method AddSources(responses: AgentResponses) returns (text: string)
    ensures text == SourcesText(responses)
  {
    var sdkText := ListSdkSources(SdkSources(responses));
    var frameworkText := ListFrameworkSources(FrameworkSources(responses));
    text := sdkText + frameworkText;
  }

  /**
    At most three sources of each kind are listed, SDK ones first, each list
    numbered from 1 in the order the agent returned them; a kind with no
    sources adds nothing.
  */
  lemma SourcesCapped(responses: AgentResponses)
    ensures |SdkSourceLines(SdkSources(responses))| <= 3
    ensures |FrameworkSourceLines(FrameworkSources(responses))| <= 3
    ensures SdkSources(responses) == [] && FrameworkSources(responses) == [] ==> SourcesText(responses) == ""
    ensures SdkSources(responses) != [] ==>
              SourcesText(responses)[..|SdkSourcesHeader|] == SdkSourcesHeader
  {
  }

  // ---------------------------------------------------------------------------
  // Composing the reply

  const FallbackAnswer := "I couldn't process your query. Please try rephrasing."
  const MultiHeader := "\U{1F504} **Multi-Agent Response:**\n\n"
  const SdkHeading := "**SDK Agent Response:**\n"
  const CodeHeading := "**Code Generator Response:**\n"

  /** `intent.get("framework_name", "framework").capitalize()`, or the exception it raises. */
  function FrameworkTitle(intent: Json): (r: Result<string>)
    ensures !intent.JObject? ==> r == Failure(NoAttribute(intent, "get"))
    ensures intent.JObject? && "framework_name" !in intent.fields ==> r == Success("Framework")
    ensures intent.JObject? && "framework_name" in intent.fields ==>
              match intent.fields["framework_name"]
              case JString(s) => r == Success(Capitalize(s))
              case v => r == Failure(NoAttribute(v, "capitalize"))
  {
    if !intent.JObject? then Failure(NoAttribute(intent, "get"))
    else
      match Get(intent.fields, "framework_name", JString("framework"))
      case JString(s) =>
        CapitalizedDefault();
        Success(Capitalize(s))
      case v => Failure(NoAttribute(v, "capitalize"))
  }

  lemma CapitalizedDefault()
    ensures Capitalize("framework") == "Framework"
  {
    DefaultSplits();
    DefaultTailLower();
    CapitalizeCons('f', "ramework");
    DefaultJoins();
  }

  lemma DefaultSplits()
    ensures "framework" == ['f'] + "ramework"
  {
  }

  lemma DefaultTailLower()
    ensures Lower("ramework") == "ramework"
  {
    LowerNoUpper("ramework");
  }

  lemma DefaultJoins()
    ensures [UpperChar('f')] + "ramework" == "Framework"
  {
  }

  function SdkPart(responses: AgentResponses): string {
    if responses.sdk.Some? then SdkHeading + responses.sdk.value.answer + "\n\n" else ""
  }

  function FrameworkPart(responses: AgentResponses, title: string): string {
    if responses.framework.Some? then "**" + title + " Specialist Response:**\n" + responses.framework.value.answer + "\n\n"
    else ""
  }

  function CodePart(responses: AgentResponses): string {
    if responses.code.Some? then CodeHeading + FormatCodeResponse(responses.code.value.sections) + "\n\n" else ""
  }

  /** The agents' sections in their fixed order: SDK, framework, code. */
  function AgentSections(responses: AgentResponses, title: string): string {
    SdkPart(responses) + FrameworkPart(responses, title) + CodePart(responses)
  }

  /** What `_synthesize_response` returns, or the exception it raises. */
  function Synthesized(responses: AgentResponses, intent: Json): Result<string> {
    if responses.Count() == 1 then
      if responses.code.Some? then Success(FormatCodeResponse(responses.code.value.sections))
      else if responses.sdk.Some? then Success(responses.sdk.value.answer)
      else Success(responses.framework.value.answer)
    else if responses.Count() > 1 then
      if responses.framework.Some? && FrameworkTitle(intent).Failure? then Failure(FrameworkTitle(intent).error)
      else
        var title := if responses.framework.Some? then FrameworkTitle(intent).value else "";
        Success(MultiHeader + AgentSections(responses, title) + SourcesText(responses))
    else Success(FallbackAnswer)
  }

  /** `ChatOrchestrator._synthesize_response`. */
  method SynthesizeResponse(responses: AgentResponses, intent: Json) returns (r: Result<string>)
    ensures r == Synthesized(responses, intent)
  {
    if responses.Count() == 1 {
      if responses.code.Some? {
        return Success(FormatCodeResponse(responses.code.value.sections));
      } else if responses.sdk.Some? {
        return Success(responses.sdk.value.answer);
      } else {
        return Success(responses.framework.value.answer);
      }
    }
    if responses.Count() > 1 {
      var text := "";
      text := text + SdkPart(responses);
      assert text == SdkPart(responses);
      var title := "";
      if responses.framework.Some? {
        var t := FrameworkTitle(intent);
        if t.Failure? {
          return Failure(t.error);
        }
        title := t.value;
      }
      text := text + FrameworkPart(responses, title);
      text := text + CodePart(responses);
      assert text == AgentSections(responses, title);
      var answer := MultiHeader;
      answer := answer + text;
      var sources := AddSources(responses);
      answer := answer + sources;
      return Success(answer);
    }
    return Success(FallbackAnswer);
  }

  /**
    The three compositions: no response gives the fixed apology; a single
    response is passed on verbatim (the code generator's formatted) with no
    header.
  */
  lemma ComposeFewResponses(responses: AgentResponses, intent: Json)
    ensures responses.Count() == 0 ==> Synthesized(responses, intent) == Success(FallbackAnswer)
    ensures responses.Count() == 1 && responses.sdk.Some? ==>
              Synthesized(responses, intent) == Success(responses.sdk.value.answer)
    ensures responses.Count() == 1 && responses.framework.Some? ==>
              Synthesized(responses, intent) == Success(responses.framework.value.answer)
    ensures responses.Count() == 1 && responses.code.Some? ==>
              Synthesized(responses, intent) == Success(FormatCodeResponse(responses.code.value.sections))
  {
  }

  /**
    Two or more responses give the multi-agent header, then the SDK, framework
    and code sections in that order (each only if that agent ran), then the
    sources; the only failure is a framework title that cannot be capitalised.
  */
  lemma ComposeManyResponses(responses: AgentResponses, intent: Json)
    requires responses.Count() >= 2
    ensures Synthesized(responses, intent).Failure? <==>
              responses.framework.Some? && FrameworkTitle(intent).Failure?
    ensures Synthesized(responses, intent).Failure? ==>
              Synthesized(responses, intent) == Failure(FrameworkTitle(intent).error)
    ensures Synthesized(responses, intent).Success? ==>
              var title := if responses.framework.Some? then FrameworkTitle(intent).value else "";
              Synthesized(responses, intent).value
              == MultiHeader + SdkPart(responses) + FrameworkPart(responses, title) + CodePart(responses)
                 + SourcesText(responses)
  {
    assert responses.Count() != 1;
    if responses.framework.Some? && FrameworkTitle(intent).Failure? {
      assert Synthesized(responses, intent) == Failure(FrameworkTitle(intent).error);
    } else {
      var title := if responses.framework.Some? then FrameworkTitle(intent).value else "";
      var sections := SdkPart(responses) + FrameworkPart(responses, title) + CodePart(responses);
      assert Synthesized(responses, intent) == Success(MultiHeader + sections + SourcesText(responses));
      Flatten(MultiHeader, SdkPart(responses), FrameworkPart(responses, title), CodePart(responses),
              SourcesText(responses));
    }
  }

  /** Regrouping a concatenation of five texts, stated on variables so no literal enters the proof. */
  lemma Flatten(a: string, b: string, c: string, d: string, e: string)
    ensures a + (b + c + d) + e == a + b + c + d + e
  {
  }

  // ---------------------------------------------------------------------------
  // The whole pipeline

  /** The dictionary `process_query` returns. */
  datatype QueryResult = QueryResult(answer: string, intent: Json, responses: AgentResponses, success: bool)

  function ErrorAnswer(error: string): string {
    "\U{274C} An error occurred: " + error + "\n\nPlease try rephrasing your question."
  }

  /** `ChatOrchestrator.process_query`: never raises; any exception becomes a failed result. */
  method ProcessQuery(query: string, services: Services) returns (r: QueryResult)
    ensures var intent := ClassifyIntent(query, services);
            var routed := Routed(query, intent, services);
            && (r.success <==> routed.Success? && Synthesized(routed.value, intent).Success?)
            && (r.success ==> r == QueryResult(Synthesized(routed.value, intent).value, intent, routed.value, true))
            && (routed.Failure? ==> r == QueryResult(ErrorAnswer(routed.error), JObject(map[]), NoResponses, false))
            && (routed.Success? && Synthesized(routed.value, intent).Failure? ==>
                  r == QueryResult(ErrorAnswer(Synthesized(routed.value, intent).error), JObject(map[]),
                                   NoResponses, false))
  {
    var intent := ClassifyIntent(query, services);
    var responses := RouteToAgents(query, intent, services);
    if responses.Failure? {
      return QueryResult(ErrorAnswer(responses.error), JObject(map[]), NoResponses, false);
    }
    var answer := SynthesizeResponse(responses.value, intent);
    if answer.Failure? {
      return QueryResult(ErrorAnswer(answer.error), JObject(map[]), NoResponses, false);
    }
    return QueryResult(answer.value, intent, responses.value, true);
  }

  /**
    An intent that asks for the SDK and a framework but gives `framework_name`
    as `null` routes fine (to the generic specialist) and then fails on
    `.capitalize()`, so the whole query fails.
  */
  lemma NullFrameworkNameFails(query: string, fields: map<string, Json>, services: Services)
    requires Flag(fields, "needs_sdk") && Flag(fields, "needs_framework")
    requires "framework_name" in fields && fields["framework_name"] == JNull
    ensures Routed(query, JObject(fields), services).Success?
    ensures Synthesized(Routed(query, JObject(fields), services).value, JObject(fields))
         == Failure(NoAttribute(JNull, "capitalize"))
  {
    assert Get(fields, "framework_name", JNull) == JNull;
    assert FrameworkRouter.RouterKey(JNull).Success?;
    assert FrameworkStep(query, fields, services).Success?;
    assert FrameworkStep(query, fields, services).value.Some?;
    var a := Routed(query, JObject(fields), services).value;
    assert a.sdk.Some? && a.framework.Some?;
    assert a.Count() >= 2;
    assert FrameworkTitle(JObject(fields)) == Failure(NoAttribute(JNull, "capitalize"));
    ComposeManyResponses(a, JObject(fields));
  }

  /** A parsed intent without any flag reaches no specialist and gets the fixed apology. */
  lemma EmptyIntentGetsFallback(query: string, services: Services)
    ensures Routed(query, JObject(map[]), services) == Success(NoResponses)
    ensures Synthesized(NoResponses, JObject(map[])) == Success(FallbackAnswer)
  {
  }
}
