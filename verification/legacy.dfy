/** The older stack under `src/llm/`: its own `LLMClient` (two providers, `perplexity` by
    default), the `PostProcessor` with a free mode, and `TextSummarizer`, which keeps one
    vector store across calls. */
module Legacy {
  import opened Wrappers
  import opened Strings
  import opened Config
  import opened Client
  import opened Prompts
  import opened Template
  import opened Completion
  import opened Summarizer

  // ---------------------------------------------------------------- client

  /** The legacy `LLMClient`: its `provider` field and its chat model. */
  datatype LegacyClient = LegacyClient(provider: string, llm: Backend)

  /** `LLMClient(provider="perplexity", model=None, temperature=0)`; `None` means "not passed". */
  datatype LegacyArgs = LegacyArgs(provider: Option<string>, model: Option<string>, temperature: Option<real>)

  const LegacyDefaultProvider: string := "perplexity"

  /** `__init__`: the provider is lower-cased, then only `openai` (default model `gpt-4o-mini`)
      and `perplexity` (default model `sonar`) are accepted; the error message shows the
      argument as passed. */
  function LegacyInit(args: LegacyArgs): (r: Result<LegacyClient>)
    ensures var given := args.provider.GetOr(LegacyDefaultProvider);
      (r.Ok? <==> Lower(given) in {"openai", "perplexity"}) &&
      (r.Err? ==> r.error == ValueError("Unknown provider: " + given)) &&
      (r.Ok? ==> r.value.provider == Lower(given) && r.value.llm.vendor.Value() == Lower(given))
    ensures r.Ok? ==> r.value.llm.temperature == args.temperature.GetOr(0.0)
    ensures r.Ok? && r.value.provider == "openai" ==> r.value.llm.model == OrElse(args.model, "gpt-4o-mini")
    ensures r.Ok? && r.value.provider == "perplexity" ==> r.value.llm.model == OrElse(args.model, "sonar")
  {
    var given := args.provider.GetOr(LegacyDefaultProvider);
    var provider := Lower(given);
    var temperature := args.temperature.GetOr(0.0);
    if provider == "openai" then
      Ok(LegacyClient(provider, Backend(OPENAI, OrElse(args.model, "gpt-4o-mini"), temperature)))
    else if provider == "perplexity" then
      Ok(LegacyClient(provider, Backend(PERPLEXITY, OrElse(args.model, "sonar"), temperature)))
    else
      Err(ValueError("Unknown provider: " + given))
  }

  /** With no arguments the legacy client talks to Perplexity's `sonar`; `gemini`, which the
      newer client accepts, is refused here. */
  lemma LegacyProviders()
    ensures LegacyInit(LegacyArgs(None, None, None)) ==
              Ok(LegacyClient("perplexity", Backend(PERPLEXITY, "sonar", 0.0)))
    ensures LegacyInit(LegacyArgs(Some("gemini"), None, None)) == Err(ValueError("Unknown provider: gemini"))
    ensures Init(ClientArgs(Some(Named("gemini")), None, None, None)).Ok?
  {
    assert Lower("gemini") == "gemini";
    assert Lower("perplexity") == "perplexity";
    assert "Unknown provider: " + "gemini" == "Unknown provider: gemini";
  }

  /** `set_provider(provider)`: the field is lower-cased and stored; the chat model stays. */
  function LegacySetProvider(c: LegacyClient, provider: string): (r: LegacyClient)
    ensures r.llm == c.llm
    ensures r.provider == Lower(provider)
  {
    c.(provider := Lower(provider))
  }

  /** `run(prompt)`: one `invoke` on the client's chat model, its content returned as is. */
  function LegacyRun(c: LegacyClient, llm: Llm, prompt: string): (r: Run<string>)
    ensures r.events == [Complete(c.llm, prompt)] && r.out == llm(c.llm, prompt)
  {
    Invoke(c.llm, llm, prompt)
  }

  /** Switching the provider after construction does not switch the model that answers. */
  lemma LegacySetProviderKeepsModel(c: LegacyClient, provider: string, llm: Llm, prompt: string)
    ensures LegacyRun(LegacySetProvider(c, provider), llm, prompt) == LegacyRun(c, llm, prompt)
    ensures LegacyRun(c, llm, prompt).events == [Complete(c.llm, prompt)]
  {
  }

  // ---------------------------------------------------------------- post-processor

  /** The legacy `PostProcessor`: a legacy client with prompts. */
  datatype LegacyProcessor = LegacyProcessor(client: LegacyClient, pm: PromptManager)

  const LegacyDefaultMode: string := "default"

  /** `process(text, mode="default")`: one completion on the mode's rendering of the text;
      an unknown mode raises `ValueError` before any call, and the answer is returned as is. */
  function LegacyProcess(p: LegacyProcessor, llm: Llm, text: string, mode: string): (r: Run<string>)
    ensures mode !in p.pm.prompts ==>
              r == Run(Err(ValueError("Prompt '" + mode + "' not found in prompts.yaml")), [])
    ensures |r.events| <= 1
    ensures r.events != [] <==> Render(p.pm, mode, TextField(text)).Ok?
    ensures r.events != [] ==>
              r.events[0] == Complete(p.client.llm, Render(p.pm, mode, TextField(text)).value) &&
              r.out == llm(p.client.llm, r.events[0].prompt)
  {
    Ask(p.client.llm, p.pm, llm, mode, TextField(text))
  }

  /** With the default mode's template `a{text}z`, processing sends exactly `a + text + z`. */
  lemma {:induction false} LegacyProcessDefault(p: LegacyProcessor, llm: Llm, text: string, a: string, z: string)
    requires LegacyDefaultMode in p.pm.prompts && p.pm.prompts[LegacyDefaultMode] == a + "{text}" + z
    requires BraceFree(a) && BraceFree(z)
    ensures LegacyProcess(p, llm, text, LegacyDefaultMode) ==
              Run(llm(p.client.llm, a + text + z), [Complete(p.client.llm, a + text + z)])
  {
    AskSendsText(p.client.llm, p.pm, llm, LegacyDefaultMode, a, z, text);
  }

  // ---------------------------------------------------------------- TextSummarizer

  /** A `TextSummarizer`: its fixed chat model, its prompts and its vector store, which
      starts out as `None`. */
  datatype TextSummarizer = TextSummarizer(llm: Backend, pm: PromptManager, vectorstore: Option<VectorIndex>)

  const TextSummarizerBackend: Backend := Backend(OPENAI, "gpt-3.5-turbo", 0.0)

  function NewTextSummarizer(pm: PromptManager): (ts: TextSummarizer)
    ensures ts.vectorstore.None? && ts.llm.model == "gpt-3.5-turbo" && ts.pm == pm
  {
    TextSummarizer(TextSummarizerBackend, pm, None)
  }

  /** `RecursiveCharacterTextSplitter(chunk_size=800, chunk_overlap=100).split_text`. */
  type Splitter = string -> seq<string>

  /** The foreign services `TextSummarizer` uses; `retrieve` answers `get_relevant_documents`. */
  datatype LegacyServices = LegacyServices(llm: Llm, split: Splitter, embed: Embedder, retrieve: Searcher)

  const RetrievalK: nat := 5
  const DefaultRetrievalQuery: string := "Retrieve the most relevant sections for summarization"

  /** The summarizer after a call, with the call's outcome; `None` is the value of the
      `MapReduce` branch, which only `pass`es. */
  datatype Step = Step(state: TextSummarizer, run: Run<Option<string>>)

  function Answered(r: Result<string>): (q: Result<Option<string>>)
    ensures q.Ok? <==> r.Ok?
    ensures r.Ok? ==> q.value == Some(r.value)
    ensures r.Err? ==> q.error == r.error
  {
    match r
    case Ok(v) => Ok(Some(v))
    case Err(e) => Err(e)
  }

  /** The `RAG` branch once a store exists: search with the given query (or the fixed
      instruction) at k = 5, join the hits with blank lines, one `RAG` call on that. */
  function RagFromStore(ts: TextSummarizer, svc: LegacyServices, store: VectorIndex, query: Option<string>): (r: Run<Option<string>>)
    ensures r.events != [] && r.events[0] == Search(query.GetOr(DefaultRetrievalQuery), RetrievalK)
    ensures var q := query.GetOr(DefaultRetrievalQuery);
      var docs := svc.retrieve(store, q, RetrievalK);
      docs.Err? ==> r == Run(Err(docs.error), [Search(q, RetrievalK)])
    ensures var q := query.GetOr(DefaultRetrievalQuery);
      var docs := svc.retrieve(store, q, RetrievalK);
      docs.Ok? ==>
        var prompt := Render(ts.pm, "RAG", TextField(Join(docs.value, "\n\n")));
        (prompt.Err? ==> r == Run(Err(prompt.error), [Search(q, RetrievalK)])) &&
        (prompt.Ok? ==> r.events == [Search(q, RetrievalK), Complete(ts.llm, prompt.value)] &&
                        r.out == Answered(svc.llm(ts.llm, prompt.value)))
  {
    var q := query.GetOr(DefaultRetrievalQuery);
    match svc.retrieve(store, q, RetrievalK)
    case Err(e) => Run(Err(e), [Search(q, RetrievalK)])
    case Ok(docs) =>
      var asked := Ask(ts.llm, ts.pm, svc.llm, "RAG", TextField(Join(docs, "\n\n")));
      Run(Answered(asked.out), [Search(q, RetrievalK)] + asked.events)
  }

  /** `summarize(text, type="default", retrieval_query=None)`. Only the `RAG` branch touches
      the state, and only to build the store from this text when there is none yet. */
  function LegacySummarize(ts: TextSummarizer, svc: LegacyServices, text: string, kind: string, query: Option<string>): (r: Step)
    ensures r.state.llm == ts.llm && r.state.pm == ts.pm
    ensures kind != "RAG" || ts.vectorstore.Some? ==> r.state == ts
    ensures kind == "RAG" && ts.vectorstore.Some? ==>
              r.run == RagFromStore(ts, svc, ts.vectorstore.value, query)
    ensures kind == "RAG" && ts.vectorstore.None? ==>
              var chunks := svc.split(text);
              var built := svc.embed(chunks);
              (built.Err? ==> r.state == ts && r.run == Run(Err(built.error), [Embed(chunks)])) &&
              (built.Ok? ==> r.state == ts.(vectorstore := Some(built.value)) &&
                             r.run.out == RagFromStore(ts, svc, built.value, query).out &&
                             r.run.events == [Embed(chunks)] + RagFromStore(ts, svc, built.value, query).events)
    ensures kind == "MapReduce" ==> r.run == Run(Ok(None), [])
    ensures kind != "RAG" && kind != "MapReduce" ==>
              r.run.events == Ask(ts.llm, ts.pm, svc.llm, "default", TextField(text)).events &&
              r.run.out == Answered(Ask(ts.llm, ts.pm, svc.llm, "default", TextField(text)).out)
  {
    if kind == "RAG" then
      match ts.vectorstore
      case Some(store) => Step(ts, RagFromStore(ts, svc, store, query))
      case None =>
        var chunks := svc.split(text);
        match svc.embed(chunks)
        case Err(e) => Step(ts, Run(Err(e), [Embed(chunks)]))
        case Ok(store) =>
          var rest := RagFromStore(ts, svc, store, query);
          Step(ts.(vectorstore := Some(store)), Run(rest.out, [Embed(chunks)] + rest.events))
    else if kind == "MapReduce" then
      Step(ts, Run(Ok(None), []))
    else
      var asked := Ask(ts.llm, ts.pm, svc.llm, "default", TextField(text));
      Step(ts, Run(Answered(asked.out), asked.events))
  }

  /** The store is built from the first document summarized with `RAG`; a later `RAG` call
      on a different text embeds nothing and searches that first store. */
  lemma StoreBuiltOnce(ts: TextSummarizer, svc: LegacyServices, first: string, second: string, q1: Option<string>, q2: Option<string>)
    requires ts.vectorstore.None?
    requires svc.embed(svc.split(first)).Ok?
    ensures var s1 := LegacySummarize(ts, svc, first, "RAG", q1);
      var s2 := LegacySummarize(s1.state, svc, second, "RAG", q2);
      s1.run.events[0] == Embed(svc.split(first)) &&
      s1.state.vectorstore == Some(svc.embed(svc.split(first)).value) &&
      s2.state == s1.state &&
      s2.run == RagFromStore(ts, svc, svc.embed(svc.split(first)).value, q2) &&
      (forall i :: 0 <= i < |s2.run.events| ==> !s2.run.events[i].Embed?)
  {
    var store := svc.embed(svc.split(first)).value;
    var r := RagFromStore(ts, svc, store, q2);
    assert ts.(vectorstore := Some(store)).llm == ts.llm;
    match svc.retrieve(store, q2.GetOr(DefaultRetrievalQuery), RetrievalK)
    case Err(_) =>
    case Ok(docs) =>
      var asked := Ask(ts.llm, ts.pm, svc.llm, "RAG", TextField(Join(docs, "\n\n")));
      assert r.events == [Search(q2.GetOr(DefaultRetrievalQuery), RetrievalK)] + asked.events;
  }

  /** With a `RAG` template `a{text}z`, the one completion the branch makes is on the
      retrieved contents joined by blank lines, and its answer is what `summarize` returns. */
  lemma {:induction false} RagSendsJoinedHits(ts: TextSummarizer, svc: LegacyServices, store: VectorIndex, query: Option<string>, a: string, z: string)
    requires "RAG" in ts.pm.prompts && ts.pm.prompts["RAG"] == a + "{text}" + z
    requires BraceFree(a) && BraceFree(z)
    requires svc.retrieve(store, query.GetOr(DefaultRetrievalQuery), RetrievalK).Ok?
    ensures var q := query.GetOr(DefaultRetrievalQuery);
      var prompt := a + Join(svc.retrieve(store, q, RetrievalK).value, "\n\n") + z;
      var r := RagFromStore(ts, svc, store, query);
      r.events == [Search(q, RetrievalK), Complete(ts.llm, prompt)] &&
      r.out == Answered(svc.llm(ts.llm, prompt))
  {
    var q := query.GetOr(DefaultRetrievalQuery);
    RenderText(ts.pm, "RAG", a, z, Join(svc.retrieve(store, q, RetrievalK).value, "\n\n"));
  }

  /** Without a query the fixed instruction is searched at k = 5, never the text itself. */
  lemma RagDefaultQuery(ts: TextSummarizer, svc: LegacyServices, text: string)
    requires ts.vectorstore.Some?
    ensures LegacySummarize(ts, svc, text, "RAG", None).run.events[0] == Search(DefaultRetrievalQuery, 5)
  {
  }
}
