/** The result shaping of `ingest` and `query`. Reading documents,
    chunking, embedding, indexing and answering belong to libraries outside
    this model: they appear as the values or functions they produce. */
module Pipeline {
  import opened Values
  import opened Builtins
  import opened Config

  /** A loaded document. */
  datatype Document = Document(text: string, metadata: map<string, Value>)

  /** A retrieved node: its text, its similarity score (absent when the
      engine gives none) and its metadata (absent when `None`). */
  datatype Node = Node(text: string, score: Option<real>, metadata: Option<map<string, Value>>)

  /** What the query engine answers: the text `str(resp)` renders and its
      `source_nodes`, `None` when the attribute is missing or `None`. */
  datatype EngineResponse = EngineResponse(answer: string, sourceNodes: Option<seq<Node>>)

  /** One entry of `sources`: the dict with keys `text`, `score` and
      `metadata`. */
  datatype Source = Source(text: string, score: Option<real>, metadata: map<string, Value>)

  /** A value in the dict that `query` returns. */
  datatype Entry = AnswerText(text: string) | SourceList(sources: seq<Source>)

  /** `ingest`: the report counts the documents the reader loaded from
      `data_dir`, whatever the splitter later makes of them. */
  function Ingest(settings: Settings, load: Text -> seq<Document>): (report: map<string, int>)
    ensures report.Keys == {"documents"}
    ensures report["documents"] == |load(settings.data_dir)|
  {
    map["documents" := |load(settings.data_dir)|]
  }

  /** `top_k or settings.top_k`: an override of `None` or `0` falls back to
      the configured value. */
  function EffectiveTopK(override: Option<int>, configured: int): (k: int)
    ensures override.Some? && override.value != 0 ==> k == override.value
    ensures override.None? || override == Some(0) ==> k == configured
  {
    match override
    case Some(n) => if n != 0 then n else configured
    case None => configured
  }

  /** The optional integer argument as the Python value it is. */
  function OptionalInt(o: Option<int>): Value {
    match o
    case Some(n) => Int(n)
    case None => Null
  }

  /** `EffectiveTopK` is Python's `or` on the argument and the setting. */
  lemma EffectiveTopKIsOr(override: Option<int>, configured: int)
    ensures Or(OptionalInt(override), Int(configured)) == Int(EffectiveTopK(override, configured))
  {
  }

  /** `getattr(resp, "source_nodes", []) or []`. */
  function NodesOrEmpty(sourceNodes: Option<seq<Node>>): seq<Node> {
    match sourceNodes
    case Some(ns) => ns
    case None => []
  }

  /** `sn.metadata or {}`. */
  function MetadataOrEmpty(metadata: Option<map<string, Value>>): map<string, Value> {
    match metadata
    case Some(d) => if d != map[] then d else map[]
    case None => map[]
  }

  /** `s` is the record made from node `n`: the text and the score copied,
      missing metadata replaced by the empty dict. */
  predicate Copies(n: Node, s: Source) {
    s.text == n.text && s.score == n.score && s.metadata == MetadataOrEmpty(n.metadata)
  }

  /** One record per node, in the engine's order. */
  predicate SourcesFor(nodes: seq<Node>, sources: seq<Source>) {
    |sources| == |nodes| && forall i :: 0 <= i < |nodes| ==> Copies(nodes[i], sources[i])
  }

  /** The loop that builds `sources` from the response's nodes. */
  method BuildSources(sourceNodes: Option<seq<Node>>) returns (sources: seq<Source>)
    ensures SourcesFor(NodesOrEmpty(sourceNodes), sources)
    ensures sources == [] <==> sourceNodes.None? || sourceNodes == Some([])
  {
    var nodes := NodesOrEmpty(sourceNodes);
    sources := [];
    for i := 0 to |nodes|
      invariant SourcesFor(nodes[..i], sources)
    {
      var sn := nodes[i];
      sources := sources + [Source(sn.text, sn.score, MetadataOrEmpty(sn.metadata))];
    }
    assert nodes[..|nodes|] == nodes;
  }

  /** The records are determined by the nodes: no other list satisfies
      `SourcesFor`. */
  lemma SourcesUnique(nodes: seq<Node>, s: seq<Source>, t: seq<Source>)
    requires SourcesFor(nodes, s) && SourcesFor(nodes, t)
    ensures s == t
  {
    forall i | 0 <= i < |s| ensures s[i] == t[i] {
      assert Copies(nodes[i], s[i]) && Copies(nodes[i], t[i]);
    }
  }

  /** `query`: the engine, configured with the effective `top_k`, answers
      the question; the result has exactly the keys `answer` and
      `sources`. */
  method Query(
    settings: Settings,
    question: string,
    topK: Option<int>,
    engine: (int, string) -> EngineResponse
  ) returns (result: map<string, Entry>)
    ensures var resp := engine(EffectiveTopK(topK, settings.top_k), question);
      && result.Keys == {"answer", "sources"}
      && result["answer"] == AnswerText(resp.answer)
      && result["sources"].SourceList?
      && SourcesFor(NodesOrEmpty(resp.sourceNodes), result["sources"].sources)
  {
    var k := EffectiveTopK(topK, settings.top_k);
    var resp := engine(k, question);
    var sources := BuildSources(resp.sourceNodes);
    result := map["answer" := AnswerText(resp.answer), "sources" := SourceList(sources)];
  }
}
