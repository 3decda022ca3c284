/** The two name tables and their lookups: `summarizers_registry.py` (strategies, with a
    fallback to the default) and `postprocessing/registry.py` (operations, raising on an
    unknown name). Lookups are exact string comparisons. */
module Registry {
  import opened Wrappers
  import opened Strings
  import opened Client
  import opened Prompts
  import opened Summarizer
  import opened PostProcessing

  /** `SUMMARIZERS`: the class registered under each name. */
  const Summarizers: map<string, Kind> := map[
    "Default" := ZeroShot,
    "RAG" := Rag,
    "MapReduce" := MapReduce
  ]

  /** `SUMMARIZERS.get(name, SUMMARIZERS["Default"])`. */
  function SummarizerKind(name: string): (k: Kind)
    ensures name in Summarizers ==> k == Summarizers[name]
    ensures name !in Summarizers ==> k == ZeroShot
  {
    if name in Summarizers then Summarizers[name] else Summarizers["Default"]
  }

  /** `get_summarizer(name, **kwargs)`: the keywords go unchanged to the constructor of the
      registered class; the name itself never causes a failure. */
  function GetSummarizer(name: string, args: ClientArgs, pm: PromptManager): (r: Result<Summarizer>)
    ensures r.Ok? <==> New(ZeroShot, args, pm).Ok?
    ensures r.Ok? ==> r.value.kind == SummarizerKind(name)
    ensures r.Ok? ==> r.value.client == New(ZeroShot, args, pm).value.client && r.value.pm == pm
  {
    New(SummarizerKind(name), args, pm)
  }

  /** The table holds exactly the three strategies, each under its own name, and every
      other name, including a differently cased one, selects zero-shot. */
  lemma SummarizerTable()
    ensures Summarizers.Keys == {"Default", "RAG", "MapReduce"}
    ensures SummarizerKind("Default") == ZeroShot
    ensures SummarizerKind("RAG") == Rag && SummarizerKind("MapReduce") == MapReduce
    ensures SummarizerKind("rag") == ZeroShot && SummarizerKind("Mapreduce") == ZeroShot
    ensures Summarizers.Values == {ZeroShot, Rag, MapReduce}
  {
    assert Summarizers["Default"] == ZeroShot;
    assert Summarizers["RAG"] == Rag;
    assert Summarizers["MapReduce"] == MapReduce;
  }

  /** `POST_PROCESSORS`: the processor class registered under each name. */
  const PostProcessors: map<string, Operation> := map[
    "Simplify" := Simplify,
    "Shorten" := Shorten,
    "Rephrase" := Rephrase,
    "Expand" := Expand
  ]

  /** `get_post_processor(name, **kwargs)`: an unknown name raises `ValueError` before any
      client is built; a known one builds its processor with the keywords unchanged. */
  function GetPostProcessor(name: string, args: ClientArgs, pm: PromptManager): (r: Result<Processor>)
    ensures name !in PostProcessors ==> r == Err(ValueError("Unknown post-processing operation: " + name))
    ensures name in PostProcessors ==> r == NewProcessor(Some(PostProcessors[name]), args, pm)
    ensures r.Ok? ==> name in PostProcessors && r.value.op == Some(PostProcessors[name])
  {
    if name !in PostProcessors then Err(ValueError("Unknown post-processing operation: " + name))
    else NewProcessor(Some(PostProcessors[name]), args, pm)
  }

  /** The table holds exactly the four operations; each name is its mode capitalised, so the
      processor found under a name renders the prompt named by the lower-cased name. */
  lemma PostProcessorTable(name: string)
    ensures PostProcessors.Keys == {"Simplify", "Shorten", "Rephrase", "Expand"}
    ensures name in PostProcessors ==> ModeOf(PostProcessors[name]) == Lower(name)
    ensures PostProcessors.Values == {Simplify, Shorten, Rephrase, Expand}
  {
    assert PostProcessors["Simplify"] == Simplify;
    assert PostProcessors["Shorten"] == Shorten;
    assert PostProcessors["Rephrase"] == Rephrase;
    assert PostProcessors["Expand"] == Expand;
    if name in PostProcessors {
      assert name in {"Simplify", "Shorten", "Rephrase", "Expand"};
    }
  }

  /** Lookup is case-sensitive: the lower-case spelling of a registered name is refused. */
  lemma PostProcessorCaseSensitive(args: ClientArgs, pm: PromptManager)
    ensures GetPostProcessor("simplify", args, pm) == Err(ValueError("Unknown post-processing operation: simplify"))
  {
    assert "simplify" !in PostProcessors by {
      assert "simplify"[0] != "Simplify"[0];
      assert "simplify" != "Shorten" && "simplify" != "Rephrase" && "simplify" != "Expand";
    }
    assert "Unknown post-processing operation: " + "simplify" == "Unknown post-processing operation: simplify";
  }
}
