/** The HTTP routes of `api/main.py` that dispatch work: `/summarize`, which picks a
    strategy and may ask for a second, audience- and style-adjusted answer, and the
    `/shorten`, `/simplify` and `/rephrase` post-processing routes. */
module Api {
  import opened Wrappers
  import opened Strings
  import opened Config
  import opened Client
  import opened Template
  import opened Prompts
  import opened Summarizer
  import opened PostProcessing

  /** The request body; `None` is a field left out (or sent as `null`). */
  datatype Input = Input(
    text: string,
    model: Option<string>,
    temperature: Option<real>,
    topP: Option<real>,
    methodName: Option<string>,
    audience: Option<string>,
    style: Option<string>)

  /** The request after its `x or default` lines. */
  datatype Request = Request(
    text: string,
    model: string,
    temperature: real,
    topP: real,
    methodName: string,
    audience: string,
    style: string)

  /** Python's `x or default` on an optional float: `None` and `0.0` are both falsy. */
  function RealOr(value: Option<real>, default: real): (r: real)
    ensures value.Some? && value.value != 0.0 ==> r == value.value
    ensures value.None? || value.value == 0.0 ==> r == default
  {
    if value.None? || value.value == 0.0 then default else value.value
  }

  const DefaultRouteModel: string := "gpt-4"
  const DefaultMethod: string := "Default"
  const DefaultAudience: string := "general"
  const DefaultStyle: string := "concise"

  /** Lines 53-59 of the route: every optional field falls back when missing or empty. */
  function Defaults(d: Input): (q: Request)
    ensures q.text == d.text
    ensures q.model == OrElse(d.model, DefaultRouteModel) && q.methodName == OrElse(d.methodName, DefaultMethod)
    ensures q.audience == OrElse(d.audience, DefaultAudience) && q.style == OrElse(d.style, DefaultStyle)
    ensures q.temperature == RealOr(d.temperature, 0.0) && q.topP == RealOr(d.topP, 0.05)
  {
    Request(
      d.text,
      OrElse(d.model, DefaultRouteModel),
      RealOr(d.temperature, 0.0),
      RealOr(d.topP, 0.05),
      OrElse(d.methodName, DefaultMethod),
      OrElse(d.audience, DefaultAudience),
      OrElse(d.style, DefaultStyle))
  }

  /** A request with nothing but text, or with empty strings, gets `gpt-4`, the default
      method, general readers and the concise style. */
  lemma DefaultsOfBareInput(text: string)
    ensures Defaults(Input(text, None, None, None, None, None, None)) ==
              Request(text, "gpt-4", 0.0, 0.05, "Default", "general", "concise")
    ensures Defaults(Input(text, Some(""), Some(0.0), Some(0.0), Some(""), Some(""), Some(""))) ==
              Request(text, "gpt-4", 0.0, 0.05, "Default", "general", "concise")
  {
  }

  /** The two method labels that select retrieval-augmented generation. */
  const RagLabels: set<string> := {"\U{1F4DA} Retrieval-Augmented Generation (RAG)", "RAG"}

  /** The strategy the route builds: RAG for the two labels, zero-shot for everything else. */
  function RouteKind(methodName: string): (k: Kind)
    ensures k == Rag <==> methodName in RagLabels
    ensures k != MapReduce
  {
    if methodName in RagLabels then Rag else ZeroShot
  }

  /** `int(temperature)`: truncation toward zero. */
  function Truncate(t: real): (r: real)
    ensures 0.0 <= t ==> 0.0 <= r <= t < r + 1.0
    ensures t < 0.0 ==> r - 1.0 < t <= r <= 0.0
  {
    if t >= 0.0 then t.Floor as real else -((-t).Floor as real)
  }

  const AudienceMap: map<string, string> := map[
    "general" := "general readers with no technical background",
    "experts" := "subject matter experts and researchers",
    "students" := "undergraduate and graduate students"
  ]

  const StyleMap: map<string, string> := map[
    "concise" := "Keep it concise and to the point",
    "detailed" := "Provide comprehensive details and explanations",
    "bullet_points" := "Format the output as clear bullet points"
  ]

  /** `audience_map.get(intended_audience, "general readers")`. */
  function AudienceText(audience: string): (t: string)
    ensures audience in AudienceMap ==> t == AudienceMap[audience]
    ensures audience !in AudienceMap ==> t == "general readers"
  {
    if audience in AudienceMap then AudienceMap[audience] else "general readers"
  }

  /** `style_map.get(summary_style, "Keep it concise")`. */
  function StyleText(style: string): (t: string)
    ensures style in StyleMap ==> t == StyleMap[style]
    ensures style !in StyleMap ==> t == "Keep it concise"
  {
    if style in StyleMap then StyleMap[style] else "Keep it concise"
  }

  /** Whether the route asks for an adjusted summary. */
  predicate Adjusts(q: Request) {
    q.audience != DefaultAudience || q.style != DefaultStyle
  }

  const AdjustHead: string := "\n        Please adjust the following summary for "
  const AdjustMiddle: string := ".\n        \n        Original Summary:\n        "
  const AdjustTail: string := "\n        \n        Adjusted Summary:\n        "

  /** The f-string of lines 97-105, with its line breaks and eight-space indentation. */
  function AdjustmentPrompt(audience: string, style: string, base: string): (p: string)
    ensures |p| >= |AdjustTail| && p[|p| - |AdjustTail|..] == AdjustTail
  {
    AdjustHead + AudienceText(audience) + ".\n        " + StyleText(style) + AdjustMiddle + base + AdjustTail
  }

  /** The base summary appears verbatim in the adjustment prompt, between the fixed header
      (which names the audience and the style) and the fixed trailer. */
  lemma {:induction false} AdjustmentEmbedsBase(audience: string, style: string, base: string)
    ensures var p := AdjustmentPrompt(audience, style, base);
      var head := AdjustHead + AudienceText(audience) + ".\n        " + StyleText(style) + AdjustMiddle;
      p[..|head|] == head && p[|head|..|head| + |base|] == base && p[|head| + |base|..] == AdjustTail
  {
    var p := AdjustmentPrompt(audience, style, base);
    var head := AdjustHead + AudienceText(audience) + ".\n        " + StyleText(style) + AdjustMiddle;
    assert p == head + base + AdjustTail;
  }

  /** The `/summarize` route: fill defaults, look the model's provider up (an unknown model
      raises `KeyError`), build the strategy with the provider member and the model, get the
      base summary, and, iff audience or style is not the default, send the adjustment prompt
      through the same summarizer's `run`. */
  function SummarizeRoute(d: Input, pm: PromptManager, svc: Services): (r: Run<string>)
    ensures Defaults(d).model !in ModelProviderMapping ==> r == Run(Err(KeyError(Defaults(d).model)), [])
  {
    var q := Defaults(d);
    if q.model !in ModelProviderMapping then Run(Err(KeyError(q.model)), [])
    else
      var kind := RouteKind(q.methodName);
      var temperature := if kind == Rag then Truncate(q.temperature) else q.temperature;
      var args := ClientArgs(Some(Member(ModelProviderMapping[q.model])), Some(q.model), Some(temperature), Some(q.topP));
      match New(kind, args, pm)
      case Err(e) => Run(Err(e), [])
      case Ok(s) =>
        var base := Summarize(s, svc, q.text);
        match base.out
        case Err(e) => base
        case Ok(summary) =>
          if Adjusts(q) then
            var adjusted := RunPrompt(s.client, svc.llm, AdjustmentPrompt(q.audience, q.style, summary));
            Run(adjusted.out, base.events + adjusted.events)
          else base
  }

  /** The summarizer the route builds for a known model: the strategy its method selects,
      talking to the model's own provider with the requested model name. */
  function RouteSummarizer(d: Input, pm: PromptManager): (s: Summarizer)
    requires Defaults(d).model in ModelProviderMapping
    ensures s.kind == RouteKind(Defaults(d).methodName) && s.pm == pm
    ensures s.client.llm.vendor == ModelProviderMapping[Defaults(d).model]
    ensures s.client.llm.model == Defaults(d).model
  {
    var q := Defaults(d);
    var kind := RouteKind(q.methodName);
    var temperature := if kind == Rag then Truncate(q.temperature) else q.temperature;
    var args := ClientArgs(Some(Member(ModelProviderMapping[q.model])), Some(q.model), Some(temperature), Some(q.topP));
    New(kind, args, pm).value
  }

  /** With a known model and a successful base summary, the route returns the base summary
      itself when audience and style are the defaults, and otherwise makes exactly one more
      completion, on the adjustment prompt, with the same chat model, and returns its answer. */
  lemma SummarizeRouteShape(d: Input, pm: PromptManager, svc: Services)
    requires Defaults(d).model in ModelProviderMapping
    requires Summarize(RouteSummarizer(d, pm), svc, d.text).out.Ok?
    ensures var q := Defaults(d);
      var s := RouteSummarizer(d, pm);
      var base := Summarize(s, svc, d.text);
      var prompt := AdjustmentPrompt(q.audience, q.style, base.out.value);
      var r := SummarizeRoute(d, pm, svc);
      (!Adjusts(q) ==> r == base) &&
      (Adjusts(q) ==> r.events == base.events + [Complete(s.client.llm, prompt)] &&
                      r.out == svc.llm(s.client.llm, prompt))
  {
  }

  /** `MapReduce` and every unrecognised method run zero-shot; only the RAG labels run RAG. */
  lemma MethodDispatch(d: Input, pm: PromptManager)
    requires Defaults(d).model in ModelProviderMapping
    ensures Defaults(d).methodName == "MapReduce" ==> RouteSummarizer(d, pm).kind == ZeroShot
    ensures RouteSummarizer(d, pm).kind == Rag <==> Defaults(d).methodName in RagLabels
    ensures d.methodName.None? ==> RouteSummarizer(d, pm).kind == ZeroShot
  {
    assert "MapReduce" != "RAG";
    assert "Default" != "RAG";
  }

  /** The post-processing route's operation. */
  datatype Route = ShortenRoute | SimplifyRoute | RephraseRoute

  function RouteOperation(route: Route): (op: Operation)
    ensures op != Expand
  {
    match route
    case ShortenRoute => Shorten
    case SimplifyRoute => Simplify
    case RephraseRoute => Rephrase
  }

  /** `/shorten`, `/simplify`, `/rephrase`: the processor is built with the provider and the
      model only; the temperature and `top_p` the request computes are never passed. */
  function ProcessRoute(route: Route, d: Input, pm: PromptManager, llm: Llm): (r: Run<string>)
    ensures Defaults(d).model !in ModelProviderMapping ==> r == Run(Err(KeyError(Defaults(d).model)), [])
    ensures |r.events| <= 1
    ensures r.events != [] ==>
              r.events[0].Complete? && r.events[0].backend.temperature == 0.0 &&
              r.events[0].backend.model == Defaults(d).model
    ensures var q := Defaults(d);
      q.model in ModelProviderMapping ==>
        var b := Backend(ModelProviderMapping[q.model], q.model, 0.0);
        var prompt := Render(pm, ModeOf(RouteOperation(route)), TextField(q.text));
        (prompt.Err? ==> r == Run(Err(prompt.error), [])) &&
        (prompt.Ok? ==> r.events == [Complete(b, prompt.value)] && r.out == llm(b, prompt.value))
  {
    var q := Defaults(d);
    if q.model !in ModelProviderMapping then Run(Err(KeyError(q.model)), [])
    else
      var args := ClientArgs(Some(Member(ModelProviderMapping[q.model])), Some(q.model), None, None);
      match NewProcessor(Some(RouteOperation(route)), args, pm)
      case Err(e) => Run(Err(e), [])
      case Ok(p) => Process(p, llm, q.text)
  }

  /** With the operation's template `a{text}z`, a post-processing route sends exactly
      `a + text + z` to the model the request names, on that model's vendor, and answers with
      what comes back. */
  lemma {:induction false} ProcessRouteSendsText(route: Route, d: Input, pm: PromptManager, llm: Llm, a: string, z: string)
    requires Defaults(d).model in ModelProviderMapping
    requires var mode := ModeOf(RouteOperation(route));
      mode in pm.prompts && pm.prompts[mode] == a + "{text}" + z
    requires BraceFree(a) && BraceFree(z)
    ensures var b := Backend(ModelProviderMapping[Defaults(d).model], Defaults(d).model, 0.0);
      ProcessRoute(route, d, pm, llm) == Run(llm(b, a + d.text + z), [Complete(b, a + d.text + z)])
  {
    RenderText(pm, ModeOf(RouteOperation(route)), a, z, d.text);
  }

  /** The request's temperature and `top_p` make no difference to a post-processing route. */
  lemma ProcessRouteIgnoresSampling(route: Route, d: Input, pm: PromptManager, llm: Llm, t: Option<real>, u: Option<real>)
    ensures ProcessRoute(route, d, pm, llm) == ProcessRoute(route, d.(temperature := t, topP := u), pm, llm)
  {
  }
}
