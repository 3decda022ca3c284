/** The step every summarizer, post-processor and the quote generator repeats:
    `self.prompt_manager.get(mode).format(...)` followed by `self.run(prompt)`. */
module Completion {
  import opened Wrappers
  import opened Client
  import opened Prompts
  import opened Template

  /** Render the mode's template, then make one completion call with the result. A missing
      mode or a formatting failure is raised before any completion is requested. */
  function Ask(b: Backend, pm: PromptManager, llm: Llm, mode: string, fields: map<string, string>): (r: Run<string>)
    ensures Render(pm, mode, fields).Err? ==> r.events == [] && r.out == Err(Render(pm, mode, fields).error)
    ensures Render(pm, mode, fields).Ok? ==>
              r.events == [Complete(b, Render(pm, mode, fields).value)] &&
              r.out == llm(b, Render(pm, mode, fields).value)
    ensures mode !in pm.prompts ==> r.events == [] && r.out.Err? && r.out.error.ValueError?
  {
    match Render(pm, mode, fields)
    case Err(e) => Run(Err(e), [])
    case Ok(prompt) => Invoke(b, llm, prompt)
  }

  /** `[ask(mode, piece) for piece in pieces]`: one call per piece, in order; the first
      failure ends the loop with the calls made so far. */
  function AskEach(b: Backend, pm: PromptManager, llm: Llm, mode: string, pieces: seq<string>): (r: Run<seq<string>>)
    ensures |r.events| <= |pieces|
    ensures r.out.Ok? ==> |r.out.value| == |r.events| == |pieces|
    ensures r.out.Ok? ==> forall k :: 0 <= k < |pieces| ==>
              Render(pm, mode, TextField(pieces[k])).Ok? &&
              r.events[k] == Complete(b, Render(pm, mode, TextField(pieces[k])).value) &&
              llm(b, Render(pm, mode, TextField(pieces[k])).value) == Ok(r.out.value[k])
  {
    if pieces == [] then Run(Ok([]), [])
    else
      var first := Ask(b, pm, llm, mode, TextField(pieces[0]));
      match first.out
      case Err(e) => Run(Err(e), first.events)
      case Ok(v) =>
        var rest := AskEach(b, pm, llm, mode, pieces[1..]);
        match rest.out
        case Err(e) => Run(Err(e), first.events + rest.events)
        case Ok(vs) =>
          assert forall k :: 1 <= k < |pieces| ==> pieces[k] == pieces[1..][k - 1];
          Run(Ok([v] + vs), first.events + rest.events)
  }

  /** With a stored template `a{text}b`, the one prompt sent is the input wrapped verbatim
      in `a` and `b`, and the answer comes back unchanged. */
  lemma {:induction false} AskSendsText(b: Backend, pm: PromptManager, llm: Llm, mode: string, a: string, z: string, text: string)
    requires mode in pm.prompts && pm.prompts[mode] == a + "{text}" + z
    requires BraceFree(a) && BraceFree(z)
    ensures Ask(b, pm, llm, mode, TextField(text)) == Run(llm(b, a + text + z), [Complete(b, a + text + z)])
  {
    RenderText(pm, mode, a, z, text);
  }
}
