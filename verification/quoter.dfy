/** `Quoter.quote` of `src/services/summarize/quoter.py`: ask for a quote from every
    paragraph, keep the non-empty answers, and ask a judge to choose among them. */
module Quoter {
  import opened Wrappers
  import opened Strings
  import opened Client
  import opened Prompts
  import opened Completion

  /** A quoter object: the client it inherits from and its prompts. */
  datatype Quoter = Quoter(client: LlmClient, pm: PromptManager)

  /** `__init__(model=None, temperature=0.0, **kwargs)`. */
  function NewQuoter(args: ClientArgs, pm: PromptManager): (r: Result<Quoter>)
    ensures r.Ok? <==> Init(args).Ok?
    ensures r.Ok? ==> r.value == Quoter(Init(args).value, pm)
  {
    match Init(args)
    case Err(e) => Err(e)
    case Ok(c) => Ok(Quoter(c, pm))
  }

  /** The answers `if quote:` lets through, in their order. */
  function NonEmpty(qs: seq<string>): (kept: seq<string>)
    ensures |kept| <= |qs|
    ensures forall i :: 0 <= i < |kept| ==> kept[i] != ""
  {
    if qs == [] then []
    else if qs[0] == "" then NonEmpty(qs[1..])
    else [qs[0]] + NonEmpty(qs[1..])
  }

  /** Filtering distributes over concatenation, so the kept answers keep paragraph order. */
  lemma {:induction false} NonEmptyAppend(a: seq<string>, b: seq<string>)
    ensures NonEmpty(a + b) == NonEmpty(a) + NonEmpty(b)
    decreases |a|
  {
    if a == [] {
      assert a + b == b;
    } else {
      assert (a + b)[0] == a[0];
      assert (a + b)[1..] == a[1..] + b;
      NonEmptyAppend(a[1..], b);
    }
  }

  /** Nothing is kept exactly when every answer is empty; a non-empty answer is kept as is. */
  lemma {:induction false} NonEmptyNone(qs: seq<string>)
    ensures NonEmpty(qs) == [] <==> forall i :: 0 <= i < |qs| ==> qs[i] == ""
    ensures (forall i :: 0 <= i < |qs| ==> qs[i] != "") ==> NonEmpty(qs) == qs
    decreases |qs|
  {
    if qs != [] {
      NonEmptyNone(qs[1..]);
      assert forall i :: 1 <= i < |qs| ==> qs[i] == qs[1..][i - 1];
      assert qs == [qs[0]] + qs[1..];
    }
  }

  const Unbound: string := "cannot access local variable 'quotes' where it is not associated with a value"

  /** `quote(text, mode="quote")`: one `mode` call per `"\n\n"` piece, blank pieces included;
      the non-empty answers, if any, are joined by newlines for one `judge_quote` call whose
      answer is returned. When every answer is empty, `quotes` was never bound and the
      `if quotes:` test raises `UnboundLocalError`, so the initial `""` is never returned. */
  function Quote(q: Quoter, llm: Llm, text: string, mode: string): (r: Run<string>)
    ensures r.out.Ok? ==> |r.events| == |Split(text, "\n\n")| + 1
    ensures r.out.Ok? ==>
              r.events[|r.events| - 1].Complete? &&
              r.out == llm(q.client.llm, r.events[|r.events| - 1].prompt)
  {
    var asked := AskEach(q.client.llm, q.pm, llm, mode, Split(text, "\n\n"));
    match asked.out
    case Err(e) => Run(Err(e), asked.events)
    case Ok(answers) =>
      var kept := NonEmpty(answers);
      if kept == [] then Run(Err(UnboundLocalError(Unbound)), asked.events)
      else
        var judged := Ask(q.client.llm, q.pm, llm, "judge_quote", map["quotes" := Join(kept, "\n")]);
        Run(judged.out, asked.events + judged.events)
  }

  const DefaultQuoteMode: string := "quote"

  /** When every paragraph's call succeeds: one call per paragraph in order, then either the
      unbound-variable failure (all answers empty) or exactly one judge call on the
      newline-joined non-empty answers, whose answer is returned. */
  lemma {:induction false} QuoteShape(q: Quoter, llm: Llm, text: string)
    requires AskEach(q.client.llm, q.pm, llm, DefaultQuoteMode, Split(text, "\n\n")).out.Ok?
    ensures var ps := Split(text, "\n\n");
      var answers := AskEach(q.client.llm, q.pm, llm, DefaultQuoteMode, ps).out.value;
      var r := Quote(q, llm, text, DefaultQuoteMode);
      |r.events| >= |ps| &&
      (forall k :: 0 <= k < |ps| ==>
        r.events[k] == Complete(q.client.llm, Render(q.pm, DefaultQuoteMode, TextField(ps[k])).value)) &&
      ((forall k :: 0 <= k < |answers| ==> answers[k] == "") ==>
        r == Run(Err(UnboundLocalError(Unbound)), r.events[..|ps|])) &&
      ((exists k :: 0 <= k < |answers| && answers[k] != "") ==>
        r.events[|ps|..] == Ask(q.client.llm, q.pm, llm, "judge_quote", map["quotes" := Join(NonEmpty(answers), "\n")]).events &&
        r.out == Ask(q.client.llm, q.pm, llm, "judge_quote", map["quotes" := Join(NonEmpty(answers), "\n")]).out)
  {
    var ps := Split(text, "\n\n");
    var asked := AskEach(q.client.llm, q.pm, llm, DefaultQuoteMode, ps);
    NonEmptyNone(asked.out.value);
    assert asked.events[..|ps|] == asked.events;
  }
}
