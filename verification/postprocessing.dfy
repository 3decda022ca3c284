/** The post-processors of `src/services/postprocessing/`: a base class whose `process` is
    abstract, and four subclasses that each render one fixed mode over the text and make one
    completion call. */
module PostProcessing {
  import opened Wrappers
  import opened Client
  import opened Prompts
  import opened Template
  import opened Completion

  datatype Operation = Simplify | Shorten | Rephrase | Expand

  /** The prompt mode each subclass's `process` looks up. */
  function ModeOf(op: Operation): string {
    match op
    case Simplify => "simplify"
    case Shorten => "shorten"
    case Rephrase => "rephrase"
    case Expand => "expand"
  }

  /** Different operations never share a prompt. */
  lemma ModesDistinct(a: Operation, b: Operation)
    ensures ModeOf(a) == ModeOf(b) <==> a == b
  {
  }

  /** A post-processor object: which subclass it is (`None` for `BasePostProcessor` itself),
      the client it inherits from, and its prompts. */
  datatype Processor = Processor(op: Option<Operation>, client: LlmClient, pm: PromptManager)

  /** `__init__(model=None, temperature=0.0, **kwargs)`: every keyword goes to the client. */
  function NewProcessor(op: Option<Operation>, args: ClientArgs, pm: PromptManager): (r: Result<Processor>)
    ensures r.Ok? <==> Init(args).Ok?
    ensures r.Ok? ==> r.value.op == op && r.value.pm == pm && r.value.client == Init(args).value
    ensures r.Err? ==> r.error == Init(args).error
  {
    match Init(args)
    case Err(e) => Err(e)
    case Ok(c) => Ok(Processor(op, c, pm))
  }

  const NotOverridden: string := "Subclasses must implement `process` method."

  /** `process(text)`: the base class raises without any call; a subclass makes at most one
      completion, on its own mode's rendering of the text, and returns the answer as is. */
  function Process(p: Processor, llm: Llm, text: string): (r: Run<string>)
    ensures p.op.None? ==> r == Run(Err(NotImplementedError(NotOverridden)), [])
    ensures |r.events| <= 1
    ensures p.op.Some? ==>
              (r.events != [] <==> Render(p.pm, ModeOf(p.op.value), TextField(text)).Ok?)
    ensures r.events != [] ==>
              r.events[0] == Complete(p.client.llm, Render(p.pm, ModeOf(p.op.value), TextField(text)).value) &&
              r.out == llm(p.client.llm, r.events[0].prompt)
    ensures p.op.Some? && ModeOf(p.op.value) !in p.pm.prompts ==>
              r.events == [] && r.out.Err? && r.out.error.ValueError?
  {
    match p.op
    case None => Run(Err(NotImplementedError(NotOverridden)), [])
    case Some(op) => Ask(p.client.llm, p.pm, llm, ModeOf(op), TextField(text))
  }

  /** With the mode's template `a{text}z`, any text, blank or not, becomes exactly one prompt
      `a + text + z`, and the completion's answer is returned unchanged. */
  lemma {:induction false} ProcessOneCall(p: Processor, llm: Llm, text: string, a: string, z: string)
    requires p.op.Some?
    requires ModeOf(p.op.value) in p.pm.prompts && p.pm.prompts[ModeOf(p.op.value)] == a + "{text}" + z
    requires BraceFree(a) && BraceFree(z)
    ensures Process(p, llm, text) == Run(llm(p.client.llm, a + text + z), [Complete(p.client.llm, a + text + z)])
  {
    AskSendsText(p.client.llm, p.pm, llm, ModeOf(p.op.value), a, z, text);
  }
}
