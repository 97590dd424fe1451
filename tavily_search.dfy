/**
  The web-search tool (src/tools/tavily_search.py): the request sent to the
  search service, the mapping of its raw hits with defaults, and the two ways
  the hits are rendered as text. The search service itself is a parameter.
*/
module TavilySearch {
  import opened Wrappers
  import opened Text

  /** A raw hit as the service returns it: every key may be absent. */
  datatype RawHit = RawHit(title: Option<string>, url: Option<string>, content: Option<string>,
                           score: Option<real>)

  /** The service's reply; `results` is absent when the reply has no such key. */
  datatype RawResponse = RawResponse(results: Option<seq<RawHit>>)

  /** A mapped hit: all four keys present. */
  datatype Hit = Hit(title: string, url: string, content: string, score: real)

  /** The keyword arguments passed to the service; `includeDomains` is absent unless given. */
  datatype SearchRequest = SearchRequest(query: string, maxResults: int, searchDepth: string,
                                         includeDomains: Option<seq<string>>)

  /** The search service: a request in, a reply or an exception out. */
  type SearchClient = SearchRequest -> Result<RawResponse>

  const AdvancedDepth := "advanced"

  // ---------------------------------------------------------------------------
  // Requests

  /** The search parameters; the domain list is passed only when it is non-empty. */
  function Request(query: string, maxResults: int, searchDepth: string,
                   includeDomains: Option<seq<string>>): (r: SearchRequest)
    ensures r.query == query && r.maxResults == maxResults && r.searchDepth == searchDepth
    ensures r.includeDomains.Some? <==> includeDomains.Some? && includeDomains.value != []
    ensures r.includeDomains.Some? ==> r.includeDomains == includeDomains
  {
    SearchRequest(query, maxResults, searchDepth,
                  if includeDomains.Some? && includeDomains.value != [] then includeDomains else None)
  }

  /** The query sent for a framework: its name, one space, the question. */
  function FrameworkQuery(frameworkName: string, query: string): (r: string)
    ensures |r| == |frameworkName| + 1 + |query|
    ensures r[..|frameworkName|] == frameworkName && r[|frameworkName|] == ' '
    ensures r[|frameworkName| + 1..] == query
  {
    frameworkName + " " + query
  }

  /** The preferred documentation sites of the five named frameworks. */
  const DomainTable: map<string, seq<string>> := map[
    "langchain" := ["python.langchain.com", "github.com/langchain-ai"],
    "llamaindex" := ["docs.llamaindex.ai", "github.com/run-llama"],
    "crewai" := ["docs.crewai.com", "github.com/joaomdmoura/crewai"],
    "autogen" := ["microsoft.github.io/autogen", "github.com/microsoft/autogen"],
    "haystack" := ["docs.haystack.deepset.ai", "github.com/deepset-ai/haystack"]
  ]

  /** `TavilySearch._get_framework_domains`: a case-insensitive table lookup. */
  function FrameworkDomains(frameworkName: string): (r: Option<seq<string>>)
    ensures r.Some? <==> Lower(frameworkName) in DomainTable
    ensures r.Some? ==> r.value == DomainTable[Lower(frameworkName)] && r.value != []
  {
    var key := Lower(frameworkName);
    if key in DomainTable then Some(DomainTable[key]) else None
  }

  /** Names that differ only in ASCII letter case get the same domains. */
  lemma DomainsIgnoreCase(a: string, b: string)
    requires Lower(a) == Lower(b)
    ensures FrameworkDomains(a) == FrameworkDomains(b)
  {
  }

  /** `generic` has no preferred domains, so its search is not restricted. */
  lemma GenericHasNoDomains()
    ensures FrameworkDomains("generic") == None
  {
    LowerNoUpper("generic");
  }

  /** The request `search_framework` sends. */
  function FrameworkRequest(frameworkName: string, query: string, maxResults: int): (r: SearchRequest)
    ensures r.query == FrameworkQuery(frameworkName, query)
    ensures r.maxResults == maxResults && r.searchDepth == AdvancedDepth
    ensures r.includeDomains == FrameworkDomains(frameworkName)
  {
    Request(FrameworkQuery(frameworkName, query), maxResults, AdvancedDepth, FrameworkDomains(frameworkName))
  }

  // ---------------------------------------------------------------------------
  // Mapping hits

  function MapHit(item: RawHit): (h: Hit)
    ensures h.title == item.title.GetOr("") && h.url == item.url.GetOr("")
    ensures h.content == item.content.GetOr("") && h.score == item.score.GetOr(0.0)
  {
    Hit(item.title.GetOr(""), item.url.GetOr(""), item.content.GetOr(""), item.score.GetOr(0.0))
  }

  function MapHits(items: seq<RawHit>): seq<Hit> {
    if items == [] then [] else [MapHit(items[0])] + MapHits(items[1..])
  }

  /** Mapping keeps one hit per raw hit, in order. */
  lemma {:induction false} MapHitsInOrder(items: seq<RawHit>)
    ensures |MapHits(items)| == |items|
    ensures forall i :: 0 <= i < |items| ==> MapHits(items)[i] == MapHit(items[i])
  {
    if items != [] {
      MapHitsInOrder(items[1..]);
    }
  }

  /** What `search` returns for a request: the mapped hits, or `[]` when the call raises. */
  function SearchResults(client: SearchClient, request: SearchRequest): seq<Hit> {
    match client(request)
    case Failure(_) => []
    case Success(response) => MapHits(response.results.GetOr([]))
  }

  /** `TavilySearch.search`. */
  method Search(client: SearchClient, query: string, maxResults: int, searchDepth: string,
                includeDomains: Option<seq<string>>) returns (results: seq<Hit>)
    ensures results == SearchResults(client, Request(query, maxResults, searchDepth, includeDomains))
  {
    var request := Request(query, maxResults, searchDepth, includeDomains);
    match client(request)
    case Failure(_) =>
      results := [];
    case Success(response) =>
      var items := response.results.GetOr([]);
      MapHitsInOrder(items);
      results := [];
      var i := 0;
      while i < |items|
        invariant 0 <= i <= |items|
        invariant results == MapHits(items)[..i]
      {
        results := results + [MapHit(items[i])];
        i := i + 1;
      }
      assert MapHits(items)[..i] == MapHits(items);
  }

  /** A failing service call gives no hits; a successful one gives one hit per raw hit. */
  lemma SearchResultsShape(client: SearchClient, request: SearchRequest)
    ensures client(request).Failure? ==> SearchResults(client, request) == []
    ensures client(request).Success? ==>
              var items := client(request).value.results.GetOr([]);
              |SearchResults(client, request)| == |items|
              && forall i :: 0 <= i < |items| ==> SearchResults(client, request)[i] == MapHit(items[i])
  {
    if client(request).Success? {
      MapHitsInOrder(client(request).value.results.GetOr([]));
    }
  }

  /** `TavilySearch.search_framework`. */
  method SearchFramework(client: SearchClient, frameworkName: string, query: string, maxResults: int)
    returns (results: seq<Hit>)
    ensures results == SearchResults(client, FrameworkRequest(frameworkName, query, maxResults))
  {
    results := Search(client, FrameworkQuery(frameworkName, query), maxResults, AdvancedDepth,
                      FrameworkDomains(frameworkName));
  }

  // ---------------------------------------------------------------------------
  // Rendering hits

  const NoResults := "No results found."
  const ResultsHeader := "Search Results:\n\n"

  /** What closes the content of every entry. */
  const Ellipsis := "...\n\n"

  /** The numbered entry of hit `h` at 1-based position `i`. */
  function ResultEntry(i: nat, h: Hit): string {
    NatToString(i) + ". **" + h.title + "**\n"
    + "   URL: " + h.url + "\n"
    + "   " + Take(h.content, 300) + Ellipsis
  }

  function ResultEntries(results: seq<Hit>): (entries: seq<string>)
    ensures |entries| == |results|
    ensures forall i :: 0 <= i < |results| ==> entries[i] == ResultEntry(i + 1, results[i])
  {
    seq(|results|, i requires 0 <= i < |results| => ResultEntry(i + 1, results[i]))
  }

  function FormattedResults(results: seq<Hit>): string {
    if results == [] then NoResults else ResultsHeader + Concat(ResultEntries(results))
  }

  /** `TavilySearch.format_results`. */
  method FormatResults(results: seq<Hit>) returns (formatted: string)
    ensures formatted == FormattedResults(results)
  {
    if |results| == 0 {
      return NoResults;
    }
    var entries := ResultEntries(results);
    formatted := ResultsHeader;
    var i := 0;
    while i < |results|
      invariant 0 <= i <= |results|
      invariant formatted == ResultsHeader + Concat(entries[..i])
    {
      AppendStep(ResultsHeader, entries, i);
      formatted := formatted + entries[i];
      i := i + 1;
    }
    assert entries[..i] == entries;
  }

  /**
    Appending a hit appends its entry, numbered after the others; a non-empty
    list never renders as the no-results sentence.
  */
  lemma FormattedResultsAppend(results: seq<Hit>, h: Hit)
    ensures FormattedResults(results + [h]) != NoResults
    ensures results != [] ==>
              FormattedResults(results + [h]) == FormattedResults(results) + ResultEntry(|results| + 1, h)
  {
    var entries := ResultEntries(results + [h]);
    assert ResultsHeader[0] != NoResults[0];
    if results != [] {
      assert entries == ResultEntries(results) + [ResultEntry(|results| + 1, h)];
      ConcatSnoc(ResultEntries(results), ResultEntry(|results| + 1, h));
    }
  }

  /**
    An entry ends with the first 300 characters of the content (all of it
    when shorter) followed by `...`, which is added whether or not anything
    was cut.
  */
  lemma EntryContentCapped(i: nat, h: Hit)
    ensures var shown := Take(h.content, 300);
            var e := ResultEntry(i, h);
            && shown <= h.content
            && |shown| == (if |h.content| < 300 then |h.content| else 300)
            && |shown| + 5 <= |e|
            && e[|e| - |shown| - 5..] == shown + Ellipsis
  {
    var shown := Take(h.content, 300);
    var head := NatToString(i) + ". **" + h.title + "**\n" + "   URL: " + h.url + "\n" + "   ";
    SuffixOf(head, shown + Ellipsis);
  }

  /** The last characters of `a + b` are `b`. */
  lemma SuffixOf(a: string, b: string)
    ensures (a + b)[|a + b| - |b|..] == b
  {
  }

  /** The context block of one hit. */
  function ContextBlock(h: Hit): (b: string)
    ensures b != ""
  {
    "Source: " + h.title + " (" + h.url + ")\n" + h.content + "\n\n"
  }

  function ContextBlocks(results: seq<Hit>): (blocks: seq<string>)
    ensures |blocks| == |results|
    ensures forall i :: 0 <= i < |results| ==> blocks[i] == ContextBlock(results[i])
  {
    seq(|results|, i requires 0 <= i < |results| => ContextBlock(results[i]))
  }

  function CombinedContext(results: seq<Hit>): string {
    Concat(ContextBlocks(results))
  }

  /** `TavilySearch.get_combined_context`. */
  method GetCombinedContext(results: seq<Hit>) returns (context: string)
    ensures context == CombinedContext(results)
  {
    if |results| == 0 {
      return "";
    }
    var blocks := ContextBlocks(results);
    context := "";
    var i := 0;
    while i < |results|
      invariant 0 <= i <= |results|
      invariant context == Concat(blocks[..i])
    {
      ConcatPrefix(blocks, i);
      context := context + ContextBlock(results[i]);
      i := i + 1;
    }
    assert blocks[..i] == blocks;
  }

  /** The combined context is empty exactly when there are no hits, and grows block by block in order. */
  lemma CombinedContextShape(results: seq<Hit>, h: Hit)
    ensures CombinedContext(results) == "" <==> results == []
    ensures CombinedContext(results + [h]) == CombinedContext(results) + ContextBlock(h)
  {
    ConcatEmpty(ContextBlocks(results));
    if results != [] {
      assert ContextBlocks(results)[0] != "";
    }
    assert ContextBlocks(results + [h]) == ContextBlocks(results) + [ContextBlock(h)];
    ConcatSnoc(ContextBlocks(results), ContextBlock(h));
  }
}
