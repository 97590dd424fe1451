/**
  The framework specialists and their router (src/agents/framework_router.py):
  a closed registry of six specialists, a lookup that always falls back to the
  generic one, and the result a specialist builds around its web search and
  its model call. Both foreign services are parameters.
*/
module FrameworkRouter {
  import opened Wrappers
  import opened Text
  import opened Json
  import TavilySearch

  /** The registered specialists. */
  datatype Framework = LangChain | LlamaIndex | CrewAI | AutoGen | Haystack | Generic

  /** The registry key of each specialist, which is also the name it works under. */
  function Name(f: Framework): string {
    match f
    case LangChain => "langchain"
    case LlamaIndex => "llamaindex"
    case CrewAI => "crewai"
    case AutoGen => "autogen"
    case Haystack => "haystack"
    case Generic => "generic"
  }

  /** `FrameworkRouter.get_supported_frameworks`: the registry's keys in insertion order. */
  const SupportedFrameworks := [Name(LangChain), Name(LlamaIndex), Name(CrewAI), Name(AutoGen),
                                Name(Haystack), Name(Generic)]

  /** `self.specialists.get(key, self.specialists["generic"])`. */
  function Lookup(key: string): (f: Framework)
    ensures key in SupportedFrameworks ==> Name(f) == key
    ensures key !in SupportedFrameworks ==> f == Generic
  {
    if key == "langchain" then LangChain
    else if key == "llamaindex" then LlamaIndex
    else if key == "crewai" then CrewAI
    else if key == "autogen" then AutoGen
    else if key == "haystack" then Haystack
    else Generic
  }

  /** The registry is exactly the six specialists, each under its own name, each once. */
  lemma RegistryIsClosed()
    ensures |SupportedFrameworks| == 6
    ensures forall f: Framework :: Name(f) in SupportedFrameworks
    ensures forall i, j :: 0 <= i < j < |SupportedFrameworks| ==> SupportedFrameworks[i] != SupportedFrameworks[j]
  {
  }

  /** Looking up a specialist's own name finds that specialist. */
  lemma LookupName(f: Framework)
    ensures Lookup(Name(f)) == f
  {
  }

  /**
    `(framework or "generic").lower()`: a falsy name becomes `generic`, a string
    is lower-cased (not trimmed), and any other value raises `AttributeError`.
  */
  function RouterKey(framework: Json): (r: Result<string>)
    ensures !Truthy(framework) ==> r == Success(Name(Generic))
    ensures Truthy(framework) && framework.JString? ==> r == Success(Lower(framework.s))
    ensures Truthy(framework) && !framework.JString? ==> r == Failure(NoAttribute(framework, "lower"))
  {
    if !Truthy(framework) then
      LowerNoUpper("generic");
      Success(Lower("generic"))
    else if framework.JString? then Success(Lower(framework.s))
    else Failure(NoAttribute(framework, "lower"))
  }

  // ---------------------------------------------------------------------------
  // A specialist's answer

  /** One citation of a specialist's answer. */
  datatype WebSource = WebSource(title: string, url: string, score: real)

  /** The specialist's dictionary; `framework` is absent from the no-results answer. */
  datatype FrameworkResult = FrameworkResult(answer: string, sources: seq<WebSource>,
                                             framework: Option<string>, success: bool)

  /** The specialist's model: capitalised framework name, search context and question in. */
  type SpecialistModel = (string, string, string) -> Result<string>

  /** Every specialist asks the search tool for at most this many hits. */
  const SpecialistMaxResults: int := 3

  function NoResultsAnswer(frameworkName: string): string {
    "\U{26A0}\U{FE0F} Couldn't find information about " + frameworkName + ". Web search quota may be exceeded."
  }

  function ErrorAnswer(frameworkName: string, error: string): string {
    "\U{274C} Error querying " + frameworkName + " information: " + error
  }

  /** The list comprehension that turns hits into citations. */
  function WebSources(hits: seq<TavilySearch.Hit>): (sources: seq<WebSource>)
    ensures |sources| == |hits|
    ensures forall i :: 0 <= i < |hits| ==>
              sources[i] == WebSource(hits[i].title, hits[i].url, hits[i].score)
  {
    seq(|hits|, i requires 0 <= i < |hits| => WebSource(hits[i].title, hits[i].url, hits[i].score))
  }

  /** The hits a specialist's search returns. */
  function SpecialistHits(frameworkName: string, question: string,
                          client: TavilySearch.SearchClient): seq<TavilySearch.Hit>
  {
    TavilySearch.SearchResults(client,
      TavilySearch.FrameworkRequest(frameworkName, question, SpecialistMaxResults))
  }

  /** `FrameworkSpecialist.query`. */
  function SpecialistQuery(frameworkName: string, question: string, client: TavilySearch.SearchClient,
                           model: SpecialistModel): (r: FrameworkResult)
    ensures var hits := SpecialistHits(frameworkName, question, client);
            hits == [] ==> r == FrameworkResult(NoResultsAnswer(frameworkName), [], None, false)
    ensures var hits := SpecialistHits(frameworkName, question, client);
            var reply := model(Capitalize(frameworkName), TavilySearch.CombinedContext(hits), question);
            && (r.success <==> hits != [] && reply.Success?)
            && (r.success ==> r == FrameworkResult(reply.value, WebSources(hits), Some(frameworkName), true))
            && (hits != [] && reply.Failure? ==>
                  r == FrameworkResult(ErrorAnswer(frameworkName, reply.error), [], Some(frameworkName), false))
    ensures !r.success ==> r.sources == []
  {
    var hits := SpecialistHits(frameworkName, question, client);
    if hits == [] then FrameworkResult(NoResultsAnswer(frameworkName), [], None, false)
    else
      match model(Capitalize(frameworkName), TavilySearch.CombinedContext(hits), question)
      case Failure(e) => FrameworkResult(ErrorAnswer(frameworkName, e), [], Some(frameworkName), false)
      case Success(answer) => FrameworkResult(answer, WebSources(hits), Some(frameworkName), true)
  }

  /** The search a specialist runs is for its own name followed by the question, capped at three hits. */
  lemma SpecialistSearchRequest(frameworkName: string, question: string)
    ensures var request := TavilySearch.FrameworkRequest(frameworkName, question, SpecialistMaxResults);
            && request.query == frameworkName + " " + question
            && request.maxResults == 3
            && request.searchDepth == "advanced"
  {
  }

  /** With no hits the model is never asked. */
  lemma NoHitsNoGeneration(frameworkName: string, question: string, client: TavilySearch.SearchClient,
                           model1: SpecialistModel, model2: SpecialistModel)
    requires SpecialistHits(frameworkName, question, client) == []
    ensures SpecialistQuery(frameworkName, question, client, model1)
         == SpecialistQuery(frameworkName, question, client, model2)
  {
  }

  /** `FrameworkRouter.query`: normalise the name, pick the specialist (falling back to generic), ask it. */
  function RouterQuery(question: string, framework: Json, client: TavilySearch.SearchClient,
                       model: SpecialistModel): (r: Result<FrameworkResult>)
    ensures RouterKey(framework).Failure? ==> r == Failure(RouterKey(framework).error)
    ensures RouterKey(framework).Success? ==>
              r == Success(SpecialistQuery(Name(Lookup(RouterKey(framework).value)), question, client, model))
  {
    match RouterKey(framework)
    case Failure(e) => Failure(e)
    case Success(key) => Success(SpecialistQuery(Name(Lookup(key)), question, client, model))
  }

  /**
    Routing never fails on a missing or string name: an unknown name, or one
    with stray spaces, goes to the generic specialist.
  */
  lemma RoutingFallsBack(question: string, name: string, client: TavilySearch.SearchClient,
                         model: SpecialistModel)
    requires Lower(name) !in SupportedFrameworks
    ensures RouterQuery(question, JString(name), client, model)
         == Success(SpecialistQuery(Name(Generic), question, client, model))
    ensures RouterQuery(question, JNull, client, model)
         == Success(SpecialistQuery(Name(Generic), question, client, model))
  {
    if name == "" {
      LowerNoUpper("");
      assert Lower(name) == "";
    }
    LookupName(Generic);
    var key := RouterKey(JString(name));
    assert key.Success? && Lookup(key.value) == Generic;
    assert RouterKey(JNull) == Success(Name(Generic));
  }

  /** Names are matched case-insensitively: `LangChain` reaches the `langchain` specialist. */
  lemma RoutingIgnoresCase(question: string, name: string, f: Framework, client: TavilySearch.SearchClient,
                           model: SpecialistModel)
    requires Lower(name) == Name(f)
    ensures RouterQuery(question, JString(name), client, model)
         == Success(SpecialistQuery(Name(f), question, client, model))
  {
    assert |Name(f)| > 0;
    assert Truthy(JString(name));
    assert RouterKey(JString(name)) == Success(Name(f));
    LookupName(f);
  }
}
