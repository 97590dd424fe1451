# mvk-sdk-agent query pipeline, in Dafny

A model of the question-answering pipeline of the MVK SDK chat assistant.
A question goes to the chat orchestrator, which asks an intent model which
specialists to run: the SDK documentation agent (vector-store retrieval plus
an answer model), the framework router and its web-search specialists, and
the code generator. It then merges their answers into one Markdown reply.
Every model, the vector store, the web-search client and `json.loads` are
parameters of the model (functions returning a `Result`, whose `Failure`
carries the text of the exception the call would raise). What is modelled
exactly is the deterministic logic around those calls:

- the configuration check and its error message (`Config`);
- the code generator's reply parser and its error result (`CodeGenerator`);
- the search tool's request construction, result mapping and the two text
  renderings of results (`TavilySearch`);
- the SDK agent's early exits, context block and source list (`SdkAgent`);
- the router's key normalisation, registry lookup with fallback, and the
  specialist's result construction (`FrameworkRouter`);
- the orchestrator's fence stripping, fallback intent, routing, response
  composition, source list and error boundary (`Orchestrator`);
- a round trip between the orchestrator's printer of a code answer and the
  code generator's parser (`ResponseRoundTrip`).

`Text` models the Python `str` operations the code relies on (`in`, `find`,
`split`, `strip`, `lower`, `capitalize`, slicing, `f"{i}"`). `Json` models the
values `json.loads` returns, Python truthiness, `dict.get`, and the
`AttributeError` message raised by a missing method. `Wrappers` holds
`Option` and `Result`.

Loops of the source (`_build_context`, `_extract_sources`, `format_results`,
`get_combined_context`, `_add_sources`, `Config.get_error_message`, the
result mapping in `search`) are methods with loop invariants, each proved
against a specification function whose properties are lemmas. The
straight-line dispatchers of the orchestrator are methods proved against a
function of their inputs. The parser, which fills a dictionary by
conditional assignments and has no loop, is a function.

Where the repository's design description and its code disagree, the model
follows the code:

- The router key is `(framework or "generic").lower()`, without trimming, so
  `" langchain"` goes to the generic specialist.
- A field of a parsed reply runs from its label to the first `**` (or the end
  of the text), not to the next label of any field.
- A bare `Cost Estimate:` label is not recognised; only the bold spelling is.
- The fallback code extraction keeps a language-tag line: an empty
  ```` ```python ```` block makes `code` equal to `python`.
- A well-formed intent with missing keys is returned as parsed, not replaced
  by the default intent. A present-but-`null` `framework_name` then makes
  `.capitalize()` raise when the framework specialist and at least one other
  agent answered (with the specialist alone its answer is returned as is),
  and `process_query` reports the error.
- A failed SDK or framework agent still has an `answer` (its error or warning
  text), and that text is passed to the code generator as context; a context
  that is missing is `None`, not an empty text.
- The agents run one after another (SDK, framework, code); the SDK and
  framework agents are not run at the same time.

## Model

| member | source | states |
|---|---|---|
| `Config.Validate` | src/utils/config.py:69-85 | the errors are the fixed four messages filtered by which of the OpenAI key, Tavily key, MVK key and PDF file is missing, in that order |
| `Config.ErrorsBounded` | src/utils/config.py:69-85 | at most four errors, each one of the fixed messages; no error exactly when the configuration is complete |
| `Config.SelectBounded` | src/utils/config.py:71-85 | filtering the message list never adds or invents a message |
| `Config.SelectEmpty` | src/utils/config.py:71-85 | the filtered list is empty exactly when no check failed |
| `Config.IsValid` | src/utils/config.py:88-90 | valid exactly when every key is set and the PDF exists |
| `Config.Bullets` | src/utils/config.py:100-101 | one bullet line per error, in order |
| `Config.GetErrorMessage` | src/utils/config.py:93-104 | empty exactly when the configuration is complete; otherwise header, one bullet per error in order, footer |
| `CodeGenerator.ExplanationMarker` | src/agents/code_generator.py:109-110 | a marker is chosen exactly when a bold or bare explanation label occurs, and the chosen one occurs |
| `CodeGenerator.CostMarker` | src/agents/code_generator.py:117-119 | a marker is chosen exactly when one of the three cost labels occurs, and the chosen one occurs |
| `CodeGenerator.GotchasMarker` | src/agents/code_generator.py:126-127 | a marker is chosen exactly when a bold or bare gotchas label occurs, and the chosen one occurs |
| `CodeGenerator.FirstPresent` | src/agents/code_generator.py:110-110 | a label of the priority list that occurs in the reply while no earlier label does, or none when none occurs |
| `CodeGenerator.MarkersFollowPriority` | src/agents/code_generator.py:109-131 | each field's marker is the first present label of its priority list (bold explanation, bare; bold estimated cost, bold cost estimate, bare estimated cost; bold gotchas, bare) |
| `CodeGenerator.FieldAfter` | src/agents/code_generator.py:111-114 | a field's text is trimmed |
| `CodeGenerator.FieldOf` | src/agents/code_generator.py:109-131 | a field without a marker is empty; any field is trimmed |
| `CodeGenerator.FieldUpToBold` | src/agents/code_generator.py:111-114 | with its label occurring once, a field is the trimmed text after the label up to the first `**` |
| `CodeGenerator.PythonBlock` | src/agents/code_generator.py:102-106 | the code of a python block is trimmed |
| `CodeGenerator.ParseResponse` | src/agents/code_generator.py:83-139 | four trimmed fields; a field whose labels are all absent is empty; without any fence the code is empty |
| `CodeGenerator.FenceInPythonFence` | src/agents/code_generator.py:102-105 | a python opener contains a bare fence |
| `CodeGenerator.CodeFromPythonBlock` | src/agents/code_generator.py:102-106 | with one python opener and a non-empty block, the code is the trimmed text between the opener and the next fence |
| `CodeGenerator.CodeIsPythonBlock` | src/agents/code_generator.py:133-137 | a non-empty python block is never overridden by the fallback |
| `CodeGenerator.CodeFromFirstFence` | src/agents/code_generator.py:134-137 | without a python opener the code is the trimmed text between the first two fences, or empty without a fence |
| `CodeGenerator.CodeFallback` | src/agents/code_generator.py:133-137 | when the python block is empty, the code is the trimmed text between the first two fences |
| `CodeGenerator.EmptyPythonBlockKeepsTag` | src/agents/code_generator.py:102-137 | an empty python block, whitespace only, yields the code `python`: the fallback keeps the language tag |
| `CodeGenerator.ExplanationPrefersBold` | src/agents/code_generator.py:109-114 | the bold explanation label wins over the bare one |
| `CodeGenerator.CostLabelPriority` | src/agents/code_generator.py:117-123 | bold estimated cost, then bold cost estimate, then bare estimated cost |
| `CodeGenerator.GotchasPreferBold` | src/agents/code_generator.py:126-131 | the bold gotchas label wins over the bare one |
| `CodeGenerator.ContextOr` | src/agents/code_generator.py:44-45 | a missing or empty context becomes the placeholder; a non-empty one is kept |
| `CodeGenerator.Generate` | src/agents/code_generator.py:42-81 | success exactly when the model answers; then the parsed fields; otherwise the error comment as code and three empty fields |
| `TavilySearch.Request` | src/tools/tavily_search.py:43-51 | query, count and depth are passed through; the domain list is sent only when given and non-empty |
| `TavilySearch.FrameworkQuery` | src/tools/tavily_search.py:106-106 | the search text is the framework name, one space, the question |
| `TavilySearch.FrameworkDomains` | src/tools/tavily_search.py:118-128 | domains exist exactly for the five table entries, looked up by the lower-cased name, and are non-empty |
| `TavilySearch.DomainsIgnoreCase` | src/tools/tavily_search.py:128-128 | two names equal up to case get the same domains |
| `TavilySearch.GenericHasNoDomains` | src/tools/tavily_search.py:120-128 | `generic` has no domain list, so none is sent |
| `TavilySearch.FrameworkRequest` | src/tools/tavily_search.py:105-116 | the framework search sends the prefixed query, the given count, advanced depth and the table's domains |
| `TavilySearch.MapHit` | src/tools/tavily_search.py:59-64 | each field taken from the raw hit, with `""` and 0.0 as defaults |
| `TavilySearch.MapHitsInOrder` | src/tools/tavily_search.py:57-64 | one hit per raw hit, in order |
| `TavilySearch.Search` | src/tools/tavily_search.py:42-86 | the loop's list is the mapped results of the request, or empty when the client fails |
| `TavilySearch.SearchResultsShape` | src/tools/tavily_search.py:54-86 | a failed call gives no hits; a successful one gives one mapped hit per raw result, in order |
| `TavilySearch.SearchFramework` | src/tools/tavily_search.py:88-116 | the results of the framework request |
| `TavilySearch.ResultEntries` | src/tools/tavily_search.py:145-148 | one numbered entry per result, numbered from 1 in order |
| `TavilySearch.FormatResults` | src/tools/tavily_search.py:130-150 | the loop builds "No results found." for no results, otherwise the header and every entry in order |
| `TavilySearch.FormattedResultsAppend` | src/tools/tavily_search.py:143-150 | one more result appends exactly its numbered entry |
| `TavilySearch.EntryContentCapped` | src/tools/tavily_search.py:148-148 | an entry ends with the first 300 characters of the content, all of it when shorter, followed by `...` even when nothing was cut |
| `TavilySearch.ContextBlock` | src/tools/tavily_search.py:167-168 | every result contributes a non-empty block |
| `TavilySearch.ContextBlocks` | src/tools/tavily_search.py:166-168 | one block per result, in order |
| `TavilySearch.GetCombinedContext` | src/tools/tavily_search.py:152-170 | the loop builds the concatenation of the blocks |
| `TavilySearch.CombinedContextShape` | src/tools/tavily_search.py:162-170 | empty exactly for no results; one more result appends exactly its block |
| `SdkAgent.ContextBlocks` | src/agents/sdk_agent.py:126-129 | one `[Source i - Page p]` block per document, numbered from 1 in order |
| `SdkAgent.BuildContext` | src/agents/sdk_agent.py:123-131 | the loop builds the concatenation of the blocks |
| `SdkAgent.ContextAppend` | src/agents/sdk_agent.py:126-129 | one more document appends exactly its block, with the next number |
| `SdkAgent.Sources` | src/agents/sdk_agent.py:135-141 | one source per document, in order |
| `SdkAgent.ExtractSources` | src/agents/sdk_agent.py:133-143 | the loop builds the source list |
| `SdkAgent.SourcesOfDocs` | src/agents/sdk_agent.py:136-141 | page and source defaults; the preview is the first 150 characters of the content (all of it when shorter) followed by `...` |
| `SdkAgent.Query` | src/agents/sdk_agent.py:29-121 | not indexed, no documents and a failed search each give their fixed answer with no sources; success exactly when documents are found and the model answers, with the answer and the documents' sources |
| `SdkAgent.NotIndexedConsultsNothing` | src/agents/sdk_agent.py:41-46 | an unindexed store gives the same result whatever the search and the model would do |
| `SdkAgent.NoDocsNoGeneration` | src/agents/sdk_agent.py:71-76 | with no documents, or a failed search, the answer model is not consulted |
| `SdkAgent.RetrievesTopK` | src/agents/sdk_agent.py:55-55 | the result depends on the store only through the top 5 documents |
| `FrameworkRouter.Lookup` | src/agents/framework_router.py:143-143 | a registered key gets its specialist; any other key gets the generic one |
| `FrameworkRouter.RegistryIsClosed` | src/agents/framework_router.py:119-126 | the supported list is the six frameworks, each once |
| `FrameworkRouter.LookupName` | src/agents/framework_router.py:119-126 | each specialist is registered under its own name |
| `FrameworkRouter.RouterKey` | src/agents/framework_router.py:140-140 | a falsy name becomes `generic`; a string is lower-cased; anything else raises the `lower` attribute error |
| `FrameworkRouter.WebSources` | src/agents/framework_router.py:83-90 | one citation per hit, in order, with its title, url and score |
| `FrameworkRouter.SpecialistQuery` | src/agents/framework_router.py:41-111 | no hits gives the quota warning; success exactly when there are hits and the model answers; every failure has no sources |
| `FrameworkRouter.SpecialistSearchRequest` | src/agents/framework_router.py:45-49 | the specialist asks for 3 advanced results for the prefixed query |
| `FrameworkRouter.NoHitsNoGeneration` | src/agents/framework_router.py:51-56 | with no hits the model is not consulted |
| `FrameworkRouter.RouterQuery` | src/agents/framework_router.py:128-151 | the specialist of the normalised key answers, or the key's error is raised |
| `FrameworkRouter.RoutingFallsBack` | src/agents/framework_router.py:140-146 | an unknown or missing name is answered by the generic specialist, never an error |
| `FrameworkRouter.RoutingIgnoresCase` | src/agents/framework_router.py:140-146 | a name equal to a framework up to case reaches that framework's specialist |
| `Orchestrator.AgentResponses.Count` | src/agents/orchestrator.py:176-176 | at most three responses; none exactly when no agent ran |
| `Orchestrator.FenceInJsonFence` | src/agents/orchestrator.py:102-104 | a json opener contains a bare fence |
| `Orchestrator.StripFence` | src/agents/orchestrator.py:101-105 | text without a fence is unchanged; a single json block gives its trimmed body; otherwise the trimmed text between the first two fences; the result holds no fence |
| `Orchestrator.ClassifyIntent` | src/agents/orchestrator.py:79-119 | a failed model call or unparsable text gives the default intent; otherwise the parsed value, unchanged |
| `Orchestrator.UnwrapJsonBlock` | src/agents/orchestrator.py:102-103 | a json block without backquotes in its body unwraps to its trimmed body |
| `Orchestrator.FencedBody` | src/agents/orchestrator.py:99-103 | a reply that is one json block around padded text is parsed from that text |
| `Orchestrator.FencedReplyIsUnwrapped` | src/agents/orchestrator.py:99-109 | the intent of such a reply is the parse of the block's body |
| `Orchestrator.AnswerContext` | src/agents/orchestrator.py:150-157 | an agent's answer is passed on exactly when it is present and non-empty, otherwise `None` |
| `Orchestrator.SdkContext` | src/agents/orchestrator.py:150-156 | the code generator gets the SDK answer exactly when the agent ran and answered non-empty |
| `Orchestrator.FrameworkContext` | src/agents/orchestrator.py:151-157 | the code generator gets the framework answer exactly when the specialist ran and answered non-empty |
| `Orchestrator.RouteToAgents` | src/agents/orchestrator.py:121-161 | the responses of the routing specification |
| `Orchestrator.RoutingFollowsFlags` | src/agents/orchestrator.py:132-161 | each agent ran exactly when its flag is truthy; the code generator gets the earlier agents' answers |
| `Orchestrator.RoutingFailures` | src/agents/orchestrator.py:135-145 | routing raises exactly for a non-dict intent or a framework name the router cannot lower-case |
| `Orchestrator.NoFlagsNoResponses` | src/agents/orchestrator.py:132-161 | no truthy flag gives no responses |
| `Orchestrator.FormatCodeResponse` | src/agents/orchestrator.py:213-231 | the printout is empty exactly when all four fields are |
| `Orchestrator.SdkSourceLines` | src/agents/orchestrator.py:240-241 | at most three lines, numbered from 1, for the first sources in order |
| `Orchestrator.FrameworkSourceLines` | src/agents/orchestrator.py:247-248 | at most three lines, numbered from 1, for the first sources in order |
| `Orchestrator.ListSdkSources` | src/agents/orchestrator.py:237-242 | the loop builds the SDK section |
| `Orchestrator.ListFrameworkSources` | src/agents/orchestrator.py:244-249 | the loop builds the framework section |
| `Orchestrator.AddSources` | src/agents/orchestrator.py:233-251 | SDK section then framework section |
| `Orchestrator.SourcesCapped` | src/agents/orchestrator.py:233-251 | at most three of each kind; nothing without sources; SDK sources come first |
| `Orchestrator.FrameworkTitle` | src/agents/orchestrator.py:194-195 | `Framework` when the key is absent, the capitalised name for a string, the `capitalize` attribute error otherwise |
| `Orchestrator.CapitalizedDefault` | src/agents/orchestrator.py:194-195 | the default title is `Framework` |
| `Orchestrator.SynthesizeResponse` | src/agents/orchestrator.py:163-211 | the reply of the composition specification |
| `Orchestrator.ComposeFewResponses` | src/agents/orchestrator.py:175-211 | no response gives the fixed fallback; a single one is returned verbatim, the code answer formatted |
| `Orchestrator.ComposeManyResponses` | src/agents/orchestrator.py:185-208 | two or more give the header, SDK, framework and code sections in that order, then sources; only the framework title can raise |
| `Orchestrator.ProcessQuery` | src/agents/orchestrator.py:36-77 | success exactly when routing and composition succeed; any failure gives the error answer, an empty intent and no responses |
| `Orchestrator.NullFrameworkNameFails` | src/agents/orchestrator.py:193-195 | a `null` framework name with two agents makes composition raise the `capitalize` error |
| `Orchestrator.EmptyIntentGetsFallback` | src/agents/orchestrator.py:132-211 | an empty intent runs no agent and gets the fallback reply |
| `ResponseRoundTrip.ParseFormatted` | src/agents/code_generator.py:83-139 | parsing the orchestrator's printout of a code answer gives the same four fields, for code without fences or labels (it may hold `**`) and paragraphs without fences, labels or `**` |
| `ResponseRoundTrip.KeywordUnpackingPrintable` | src/agents/code_generator.py:109-131 | code such as `f(**kw)` is covered by the round trip: the parser seeks `**` only after a label |
| `ResponseRoundTrip.FormatInjective` | src/agents/orchestrator.py:213-231 | two such code answers with the same printout are equal |
| `ResponseRoundTrip.ParseGluedReply` | src/agents/code_generator.py:102-131 | a reply with the closing fence glued to the explanation label parses into its four fields |
| `ResponseRoundTrip.ExampleParse` | src/agents/code_generator.py:83-139 | the glued sample reply parses to `print(1)`, `Prints one.`, `Free`, `None.` |

## Left out

- Telemetry, metering, tracing contexts, signals and `print` logging
  (src/utils/mvk_tracker.py and the `mvk` wrappers): they do not change any
  result.
- Prompts and the models themselves: each model is a function parameter from
  its inputs to a reply or an error message; the prompt templates are not
  part of this model.
- The vector store, the PDF ingestion and the web-search client are function
  parameters; src/tools/chromadb_manager.py, src/tools/pdf_ingestion.py and
  src/app.py are not part of this model.
- Floating-point values: search scores are carried as opaque reals; the
  temperatures and tool prices are not modelled.
- `json.loads` is a parameter; only its result shapes are modelled.
- Conversation history, which `process_query` accepts and ignores.
- `get_stats` of each agent, which only reports configuration.
- Exceptions raised by Python itself inside the agents' own code (for example
  a hit without a `title` key) other than the `AttributeError`s listed above:
  the modelled inputs always have the keys the code reads.
- Text case: `lower` and `capitalize` are modelled on ASCII letters only;
  Unicode case mapping is not modelled.
- The emoji of the orchestrator's messages are modelled as the intended code
  points, not as the mis-encoded bytes in the file.
- `TavilySearch.Search`: the client's exception is the failing result of the
  client parameter; the metering call between the mapping and the return is
  left out.
- `CodeGenerator.FieldUpToBold`: stated only when the label occurs once; with
  a repeated label Python's `split` cuts at the second occurrence, which the
  parser models but this lemma does not describe.
- `CodeGenerator.CodeFromPythonBlock`: likewise stated for a single python
  opener.
- `ResponseRoundTrip.ParseFormatted`: holds for field texts that are trimmed
  and contain no fence and no bare label; the code may contain `**` but not
  `**Cost Estimate:**`, and the three paragraphs may not contain `**`. A
  paragraph with `**` is cut there by the parser; a label or fence inside any
  field is taken for the section it names.
