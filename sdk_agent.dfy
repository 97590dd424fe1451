/**
  The SDK documentation agent (src/agents/sdk_agent.py): retrieval-augmented
  answering over the indexed SDK manual. The vector store and the answering
  model are parameters; what is modelled is the order of the checks, the
  context and sources built from the retrieved chunks, and the result shapes.
*/
module SdkAgent {
  import opened Wrappers
  import opened Text
  import Config

  /**
    A retrieved chunk. `page` and `source` are the metadata entries, absent when
    the chunk has none, as the text an f-string renders for them.
  */
  datatype Document = Document(content: string, page: Option<string>, source: Option<string>)

  /** One citation of the agent's answer. */
  datatype DocSource = DocSource(page: string, source: string, contentPreview: string)

  /** The agent's dictionary: `answer`, `sources` and `success`. */
  datatype SdkResult = SdkResult(answer: string, sources: seq<DocSource>, success: bool)

  /** The vector store: whether it holds any chunk, and its similarity search (query, k). */
  datatype VectorStore = VectorStore(indexed: bool, search: (string, nat) -> Result<seq<Document>>)

  /** The answering model: context and question in, answer or exception out. */
  type AnswerModel = (string, string) -> Result<string>

  const UnknownPage := "?"
  const DefaultSource := "mvk_sdk_documentation.pdf"
  const PreviewLength: nat := 150
  const NotIndexedAnswer := "\U{26A0}\U{FE0F} Documentation not yet indexed. Please wait for indexing to complete."
  const NotFoundAnswer := "I couldn't find relevant information in the MVK SDK documentation for this question."
  const ErrorPrefix := "\U{274C} Error querying SDK documentation: "

  // ---------------------------------------------------------------------------
  // Context

  /** The block of the `i`-th (from 1) retrieved chunk. */
  function ContextBlock(i: nat, doc: Document): string {
    "[Source " + NatToString(i) + " - Page " + doc.page.GetOr(UnknownPage) + "]\n"
    + Strip(doc.content) + "\n\n"
  }

  function ContextBlocks(docs: seq<Document>): (blocks: seq<string>)
    ensures |blocks| == |docs|
    ensures forall i :: 0 <= i < |docs| ==> blocks[i] == ContextBlock(i + 1, docs[i])
  {
    seq(|docs|, i requires 0 <= i < |docs| => ContextBlock(i + 1, docs[i]))
  }

  function Context(docs: seq<Document>): string {
    Concat(ContextBlocks(docs))
  }

  /** `SDKAgent._build_context`. */
  method BuildContext(docs: seq<Document>) returns (context: string)
    ensures context == Context(docs)
  {
    var blocks := ContextBlocks(docs);
    context := "";
    var i := 0;
    while i < |docs|
      invariant 0 <= i <= |docs|
      invariant context == Concat(blocks[..i])
    {
      assert blocks[i] == ContextBlock(i + 1, docs[i]);
      context := context + blocks[i];
      ConcatPrefix(blocks, i);
      i := i + 1;
    }
    assert blocks[..i] == blocks;
  }

  /** The context grows by one block per chunk, numbered after the earlier ones. */
  lemma ContextAppend(docs: seq<Document>, doc: Document)
    ensures Context(docs + [doc]) == Context(docs) + ContextBlock(|docs| + 1, doc)
  {
    assert ContextBlocks(docs + [doc]) == ContextBlocks(docs) + [ContextBlock(|docs| + 1, doc)];
    ConcatSnoc(ContextBlocks(docs), ContextBlock(|docs| + 1, doc));
  }

  // ---------------------------------------------------------------------------
  // Sources

  function SourceOf(doc: Document): DocSource {
    DocSource(doc.page.GetOr(UnknownPage), doc.source.GetOr(DefaultSource),
              Take(doc.content, PreviewLength) + "...")
  }

  function Sources(docs: seq<Document>): (sources: seq<DocSource>)
    ensures |sources| == |docs|
    ensures forall i :: 0 <= i < |docs| ==> sources[i] == SourceOf(docs[i])
  {
    seq(|docs|, i requires 0 <= i < |docs| => SourceOf(docs[i]))
  }

  /** `SDKAgent._extract_sources`. */
  method ExtractSources(docs: seq<Document>) returns (sources: seq<DocSource>)
    ensures sources == Sources(docs)
  {
    sources := [];
    var i := 0;
    while i < |docs|
      invariant 0 <= i <= |docs|
      invariant sources == Sources(docs)[..i]
    {
      sources := sources + [SourceOf(docs[i])];
      i := i + 1;
    }
    assert Sources(docs)[..i] == Sources(docs);
  }

  /**
    One citation per chunk, in retrieval order: the page or `?`, the file or the
    manual's name, and a preview that is the first 150 characters plus `...`.
  */
  lemma SourcesOfDocs(docs: seq<Document>)
    ensures |Sources(docs)| == |docs|
    ensures forall i :: 0 <= i < |docs| ==>
              var s := Sources(docs)[i];
              && s.page == docs[i].page.GetOr(UnknownPage)
              && s.source == docs[i].source.GetOr(DefaultSource)
              && |s.contentPreview| <= PreviewLength + 3
              && |s.contentPreview|
                 == (if |docs[i].content| < PreviewLength then |docs[i].content| else PreviewLength) + 3
              && s.contentPreview[..|s.contentPreview| - 3] <= docs[i].content
              && s.contentPreview[|s.contentPreview| - 3..] == "..."
  {
    forall i | 0 <= i < |docs|
      ensures Sources(docs)[i].contentPreview[..|Sources(docs)[i].contentPreview| - 3] <= docs[i].content
    {
      var t := Take(docs[i].content, PreviewLength);
      assert (t + "...")[..|t|] == t;
    }
  }

  // ---------------------------------------------------------------------------
  // Answering

  /** `SDKAgent.query`: the index check, retrieval of five chunks, then the model call. */
  function Query(question: string, store: VectorStore, model: AnswerModel): (r: SdkResult)
    ensures !store.indexed ==> r == SdkResult(NotIndexedAnswer, [], false)
    ensures store.indexed && store.search(question, Config.TopKResults) == Success([]) ==>
              r == SdkResult(NotFoundAnswer, [], false)
    ensures store.indexed && store.search(question, Config.TopKResults).Failure? ==>
              r == SdkResult(ErrorPrefix + store.search(question, Config.TopKResults).error, [], false)
    ensures r.success <==>
              && store.indexed
              && store.search(question, Config.TopKResults).Success?
              && store.search(question, Config.TopKResults).value != []
              && model(Context(store.search(question, Config.TopKResults).value), question).Success?
    ensures r.success ==>
              var docs := store.search(question, Config.TopKResults).value;
              r == SdkResult(model(Context(docs), question).value, Sources(docs), true)
    ensures !r.success ==> r.sources == []
  {
    if !store.indexed then SdkResult(NotIndexedAnswer, [], false)
    else
      match store.search(question, Config.TopKResults)
      case Failure(e) => SdkResult(ErrorPrefix + e, [], false)
      case Success(docs) =>
        if docs == [] then SdkResult(NotFoundAnswer, [], false)
        else
          match model(Context(docs), question)
          case Failure(e) => SdkResult(ErrorPrefix + e, [], false)
          case Success(answer) => SdkResult(answer, Sources(docs), true)
  }

  /** Before the index is ready nothing is searched and nothing is generated. */
  lemma NotIndexedConsultsNothing(question: string, search1: (string, nat) -> Result<seq<Document>>,
                                  search2: (string, nat) -> Result<seq<Document>>,
                                  model1: AnswerModel, model2: AnswerModel)
    ensures Query(question, VectorStore(false, search1), model1)
         == Query(question, VectorStore(false, search2), model2)
  {
  }

  /** When retrieval finds nothing, or fails, the model is never asked. */
  lemma NoDocsNoGeneration(question: string, store: VectorStore, model1: AnswerModel, model2: AnswerModel)
    requires store.search(question, Config.TopKResults).Failure?
             || store.search(question, Config.TopKResults) == Success([])
    ensures Query(question, store, model1) == Query(question, store, model2)
  {
  }

  /** Retrieval asks for exactly `TOP_K_RESULTS` (five) chunks: only that search result matters. */
  lemma RetrievesTopK(question: string, store1: VectorStore, store2: VectorStore, model: AnswerModel)
    requires store1.indexed == store2.indexed
    requires store1.search(question, 5) == store2.search(question, 5)
    ensures Query(question, store1, model) == Query(question, store2, model)
  {
  }
}
