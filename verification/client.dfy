/** The LLM client of `src/services/llm_client.py`: provider dispatch at construction,
    the field setters and `run`, with the chat model itself as an oracle.
 */
module Client {
  import opened Wrappers
  import opened Strings
  import opened Config

  /** The LangChain chat model a client was built with: ChatOpenAI, ChatPerplexity or
      ChatGoogleGenerativeAI, with the model name and temperature it received. */
  datatype Backend = Backend(vendor: Provider, model: string, temperature: real)

  /** One call into a foreign service, recorded in the order the program makes it. */
  datatype Event =
      /** `invoke(prompt)` on a chat model */
    | Complete(backend: Backend, prompt: string)
      /** building a FAISS index: one embedding per text */
    | Embed(texts: seq<string>)
      /** a similarity search for the `k` texts nearest to `query` */
    | Search(query: string, k: nat)

  /** The completion oracle: the content `invoke` returns, or the failure it raises. */
  type Llm = (Backend, string) -> Result<string>

  /** An outcome together with every foreign call made to reach it. */
  datatype Run<T> = Run(out: Result<T>, events: seq<Event>)

  /** The prompts sent for completion, in order. */
  function PromptsSent(events: seq<Event>): (ps: seq<string>)
    ensures |ps| <= |events|
  {
    if |events| == 0 then []
    else if events[0].Complete? then [events[0].prompt] + PromptsSent(events[1..])
    else PromptsSent(events[1..])
  }

  lemma {:induction false} PromptsAppend(a: seq<Event>, b: seq<Event>)
    ensures PromptsSent(a + b) == PromptsSent(a) + PromptsSent(b)
  {
    if |a| > 0 {
      assert (a + b)[0] == a[0];
      assert (a + b)[1..] == a[1..] + b;
      PromptsAppend(a[1..], b);
    } else {
      assert a + b == b;
    }
  }

  /** A provider argument: a string, a `Provider` member, or a value of any other type. */
  datatype ProviderArg = Named(name: string) | Member(p: Provider) | Unsupported

  /** The keyword arguments a client is constructed with; `None` means "not passed". */
  datatype ClientArgs = ClientArgs(
    provider: Option<ProviderArg>,
    model: Option<string>,
    temperature: Option<real>,
    topP: Option<real>)

  /** An `LLMClient`: the `provider` and `model` fields and the chat model `llm`. */
  datatype LlmClient = LlmClient(provider: string, model: Option<string>, llm: Backend)

  const DefaultProvider: string := "openai"

  /** The model each provider falls back to when none is given. */
  function DefaultModelFor(p: Provider): string {
    match p
    case OPENAI => "gpt-4o-mini"
    case PERPLEXITY => "sonar"
    case GEMINI => "gemini-2.5-flash"
  }

  /** The provider a lower-cased name selects, if any. */
  function VendorNamed(lowered: string): Option<Provider> {
    if lowered == "openai" then Some(OPENAI)
    else if lowered == "perplexity" then Some(PERPLEXITY)
    else if lowered == "gemini" then Some(GEMINI)
    else None
  }

  /** The dispatch on the lower-cased provider name; `shown` is the argument as the error
      message prints it. */
  function Connect(lowered: string, shown: string, model: Option<string>, temperature: real): (r: Result<LlmClient>)
    ensures r.Ok? <==> lowered in {"openai", "perplexity", "gemini"}
    ensures r.Err? ==> r.error == ValueError("Unknown provider: " + shown)
    ensures r.Ok? ==> r.value.provider == lowered && r.value.llm.vendor.Value() == lowered
    ensures r.Ok? ==> r.value.model == model && r.value.llm.temperature == temperature
    ensures r.Ok? ==> r.value.llm.model == OrElse(model, DefaultModelFor(r.value.llm.vendor))
  {
    match VendorNamed(lowered)
    case None => Err(ValueError("Unknown provider: " + shown))
    case Some(v) => Ok(LlmClient(lowered, model, Backend(v, OrElse(model, DefaultModelFor(v)), temperature)))
  }

  /** `LLMClient.__init__` as written: `provider.lower()` is called on whatever was passed,
      so a `Provider` member (which has no `lower`) raises `AttributeError`. */
  function InitAsWritten(args: ClientArgs): (r: Result<LlmClient>)
  {
    var temperature := args.temperature.GetOr(0.0);
    match args.provider.GetOr(Named(DefaultProvider))
    case Named(s) => Connect(Lower(s), s, args.model, temperature)
    case Member(p) => Err(AttributeError("'Provider' object has no attribute 'lower'"))
    case Unsupported => Err(AttributeError("object has no attribute 'lower'"))
  }

  /** A `Provider` member passed to the client is refused with `AttributeError`, whichever
      member it is; `api/main.py` passes exactly such members. */
  lemma InitAsWrittenRejectsMembers(p: Provider, model: Option<string>, temperature: Option<real>, topP: Option<real>)
    ensures InitAsWritten(ClientArgs(Some(Member(p)), model, temperature, topP)).Err?
    ensures InitAsWritten(ClientArgs(Some(Member(p)), model, temperature, topP)).error.AttributeError?
  {
  }

  /** `LLMClient.__init__` with a `Provider` member normalised the way `set_provider` does
      (`provider.name.lower()`); every other argument is handled as written. */
  function Init(args: ClientArgs): (r: Result<LlmClient>)
    ensures args.provider.None? ==> r.Ok? && r.value.llm.vendor == OPENAI
    ensures args.provider.Some? && args.provider.value.Member? ==>
              r.Ok? && r.value.llm.vendor == args.provider.value.p
    ensures args.provider.Some? && args.provider.value.Named? ==> r == InitAsWritten(args)
    ensures r.Ok? ==> r.value.model == args.model && r.value.llm.temperature == args.temperature.GetOr(0.0)
  {
    var temperature := args.temperature.GetOr(0.0);
    match args.provider.GetOr(Named(DefaultProvider))
    case Named(s) => Connect(Lower(s), s, args.model, temperature)
    case Member(p) =>
      ValueIsLowerName(p);
      Connect(Lower(p.Name()), p.Name(), args.model, temperature)
    case Unsupported => Err(AttributeError("object has no attribute 'lower'"))
  }

  /** The names the constructor accepts, whatever their case. */
  lemma InitAcceptsExactlyThree(s: string, model: Option<string>)
    ensures Init(ClientArgs(Some(Named(s)), model, None, None)).Ok? <==>
              Lower(s) in {"openai", "perplexity", "gemini"}
  {
  }

  /** `set_provider`: a string is lower-cased, a `Provider` member gives its lower-cased name,
      anything else raises `ValueError`; only the `provider` field changes. */
  function SetProvider(c: LlmClient, arg: ProviderArg): (r: Result<LlmClient>)
    ensures r.Err? <==> arg.Unsupported?
    ensures r.Ok? ==> r.value.llm == c.llm && r.value.model == c.model
    ensures arg.Named? ==> r == Ok(c.(provider := Lower(arg.name)))
    ensures arg.Member? ==> r == Ok(c.(provider := arg.p.Value()))
    ensures arg.Unsupported? ==> r.Err? && r.error.ValueError?
  {
    match arg
    case Named(s) => Ok(c.(provider := Lower(s)))
    case Member(p) =>
      ValueIsLowerName(p);
      Ok(c.(provider := Lower(p.Name())))
    case Unsupported => Err(ValueError("Unknown provider type"))
  }

  /** `set_model`: only the `model` field changes; the chat model is not rebuilt. */
  function SetModel(c: LlmClient, model: string): (r: LlmClient)
    ensures r.llm == c.llm && r.provider == c.provider
    ensures r.model == Some(model)
  {
    c.(model := Some(model))
  }

  /** `str(chat_model.invoke(prompt).content)`: one completion, whose answer is passed on. */
  function Invoke(b: Backend, llm: Llm, prompt: string): (r: Run<string>)
    ensures PromptsSent(r.events) == [prompt]
    ensures r.events == [Complete(b, prompt)] && r.out == llm(b, prompt)
  {
    Run(llm(b, prompt), [Complete(b, prompt)])
  }

  /** `run`: one `invoke` on the client's chat model; its content is returned as is. */
  function RunPrompt(c: LlmClient, llm: Llm, prompt: string): (r: Run<string>)
    ensures PromptsSent(r.events) == [prompt]
    ensures r.events == [Complete(c.llm, prompt)] && r.out == llm(c.llm, prompt)
  {
    Invoke(c.llm, llm, prompt)
  }

  /** After construction, a chain of setters never changes which chat model answers `run`. */
  lemma SettersKeepBackend(c: LlmClient, arg: ProviderArg, model: string, llm: Llm, prompt: string)
    requires SetProvider(c, arg).Ok?
    ensures RunPrompt(SetModel(SetProvider(c, arg).value, model), llm, prompt) == RunPrompt(c, llm, prompt)
  {
  }
}
