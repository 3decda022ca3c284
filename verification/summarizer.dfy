/** The summarization strategies of `src/services/summarize/summarizer.py`: the shared
    `summarize(text, mode)` step, the paragraph splitter, the zero-shot strategy, the
    retrieval-augmented strategy with its word-window chunker, and map-reduce. */
module Summarizer {
  import opened Wrappers
  import opened Strings
  import opened Client
  import opened Prompts
  import opened Completion

  datatype Kind = ZeroShot | Rag | MapReduce

  /** A summarizer object: its strategy, the client it inherits from, and the prompts its
      constructor loaded. */
  datatype Summarizer = Summarizer(kind: Kind, client: LlmClient, pm: PromptManager)

  /** A FAISS index built from some texts; its internals are not modelled. */
  datatype VectorIndex = VectorIndex(texts: seq<string>)

  /** `FAISS.from_texts(texts, OpenAIEmbeddings())`: the index, or the failure raised. */
  type Embedder = seq<string> -> Result<VectorIndex>

  /** `similarity_search(query, k=k)` on an index: page contents of the hits, or the failure. */
  type Searcher = (VectorIndex, string, nat) -> Result<seq<string>>

  /** The foreign services a strategy may use. */
  datatype Services = Services(llm: Llm, embed: Embedder, search: Searcher)

  const ChunkSize: int := 500
  const ChunkOverlap: int := 50
  const RagTopK: nat := 3

  /** `Summarizer.__init__`: the client is built with `temperature` defaulting to 0 and every
      other keyword passed through; the prompts are whatever `PromptManager()` loaded. */
  function New(kind: Kind, args: ClientArgs, pm: PromptManager): (r: Result<Summarizer>)
    ensures r.Ok? <==> Init(args.(temperature := Some(args.temperature.GetOr(0.0)))).Ok?
    ensures r.Ok? ==> r.value.kind == kind && r.value.pm == pm
    ensures r.Ok? ==> r.value.client.llm.temperature == args.temperature.GetOr(0.0)
    ensures r.Ok? ==> r.value.client.model == args.model
  {
    match Init(args.(temperature := Some(args.temperature.GetOr(0.0))))
    case Err(e) => Err(e)
    case Ok(c) => Ok(Summarizer(kind, c, pm))
  }

  /** `Summarizer.summarize(text, mode)`: render `mode` over `text=text`, then one call. */
  function SummarizeMode(s: Summarizer, llm: Llm, text: string, mode: string): (r: Run<string>)
    ensures |r.events| <= 1
    ensures r.events != [] <==> Render(s.pm, mode, TextField(text)).Ok?
    ensures r.events != [] ==> r.events[0] == Complete(s.client.llm, Render(s.pm, mode, TextField(text)).value)
    ensures r.events != [] ==> r.out == llm(s.client.llm, r.events[0].prompt)
    ensures r.events == [] ==> r.out.Err? && r.out.error == Render(s.pm, mode, TextField(text)).error
  {
    Ask(s.client.llm, s.pm, llm, mode, TextField(text))
  }

  /** `split_by_paragraph`: `text.split("\n\n")`. */
  function SplitByParagraph(text: string): (ps: seq<string>)
    ensures |ps| >= 1
    ensures Join(ps, "\n\n") == text
    ensures forall k :: 0 <= k < |ps| ==> !Contains(ps[k], "\n\n")
  {
    Split(text, "\n\n")
  }

  /** Paragraphs come back unchanged from splitting their join, provided none holds a blank
      line and none but the last ends in a newline. */
  lemma {:induction false} ParagraphsRoundTrip(ps: seq<string>)
    requires |ps| >= 1
    requires forall k :: 0 <= k < |ps| ==> !Contains(ps[k], "\n\n")
    requires forall k :: 0 <= k < |ps| - 1 ==> !EndsWith(ps[k], '\n')
    ensures SplitByParagraph(Join(ps, "\n\n")) == ps
  {
    forall k | 0 <= k < |ps| - 1
      ensures Separable(ps[k], "\n\n")
    {
      ParagraphSeparable(ps[k]);
    }
    SplitJoin(ps, "\n\n");
  }

  lemma {:induction false} ParagraphSeparable(p: string)
    requires !Contains(p, "\n\n") && !EndsWith(p, '\n')
    ensures Separable(p, "\n\n")
  {
    SeparableByLastChar(p, "\n\n");
  }

  /** Python's clamping of a slice bound `i` against a length `n`. */
  function ClampIndex(i: int, n: nat): (c: nat)
    ensures c <= n
    ensures 0 <= i <= n ==> c == i
    ensures i > n ==> c == n
  {
    if i < 0 then (if i + n < 0 then 0 else i + n)
    else if i > n then n
    else i
  }

  /** Python's `s[lo:hi]`. */
  function PySlice<T>(s: seq<T>, lo: int, hi: int): (r: seq<T>)
    ensures 0 <= lo <= hi ==> r == s[ClampIndex(lo, |s|)..ClampIndex(hi, |s|)]
  {
    var a := ClampIndex(lo, |s|);
    var b := ClampIndex(hi, |s|);
    if a < b then s[a..b] else []
  }

  /** `len(range(0, m, step))` for a positive step, counted the way the loop steps. */
  function RangeLen(m: int, step: int): nat
    requires step > 0
    decreases m
  {
    if m <= 0 then 0 else 1 + RangeLen(m - step, step)
  }

  /** The loop runs `ceil(m / step)` times: the least count whose steps reach `m`. */
  lemma {:induction false} RangeLenIsCeiling(m: int, step: int)
    requires step > 0
    ensures m <= 0 ==> RangeLen(m, step) == 0
    ensures m > 0 ==> (RangeLen(m, step) - 1) * step < m <= RangeLen(m, step) * step
    decreases m
  {
    if m > 0 {
      var c: int := RangeLen(m - step, step);
      RangeLenIsCeiling(m - step, step);
      MulSucc(c - 1, step);
      MulSucc(c, step);
    }
  }

  lemma MulSucc(a: int, d: int)
    ensures (a + 1) * d == a * d + d
  {
  }

  function Min(a: int, b: int): int {
    if a <= b then a else b
  }

  /** `k` steps of length `step`: the value of the loop variable in iteration `k`. */
  function Offset(k: nat, step: nat): nat {
    if k == 0 then 0 else Offset(k - 1, step) + step
  }

  lemma {:induction false} OffsetIsProduct(k: nat, step: nat)
    ensures Offset(k, step) == k * step
  {
    if k > 0 {
      OffsetIsProduct(k - 1, step);
      MulSucc(k - 1, step);
    }
  }

  /** The windows `words[i:i + size]` taken by `for i in range(start, len(words), step)`. */
  function Windows<T>(words: seq<T>, size: int, step: nat, start: nat): seq<seq<T>>
    requires step > 0
    decreases |words| - start
  {
    if start >= |words| then []
    else [PySlice(words, start, start + size)] + Windows(words, size, step, start + step)
  }

  /** `" ".join(w)` for every window, in order. */
  function JoinEach(wss: seq<seq<string>>): (cs: seq<string>)
    ensures |cs| == |wss|
  {
    if wss == [] then [] else [Join(wss[0], " ")] + JoinEach(wss[1..])
  }

  lemma {:induction false} JoinEachAt(wss: seq<seq<string>>, k: nat)
    requires k < |wss|
    ensures JoinEach(wss)[k] == Join(wss[k], " ")
    decreases k
  {
    if k > 0 {
      JoinEachAt(wss[1..], k - 1);
    }
  }

  /** The loop runs once per value of `range(start, len(words), step)`. */
  lemma {:induction false} WindowsLength<T>(words: seq<T>, size: int, step: nat, start: nat)
    requires step > 0
    ensures |Windows(words, size, step, start)| == RangeLen(|words| - start, step)
    decreases |words| - start
  {
    if start < |words| {
      WindowsLength(words, size, step, start + step);
    }
  }

  /** `split_text(text, chunk_size, overlap)`: word windows of `chunk_size` words advancing by
      `chunk_size - overlap`. A zero step raises `ValueError` in `range`; a negative one yields
      no chunk at all. */
  function SplitText(text: string, size: int, overlap: int): (r: Result<seq<string>>)
    ensures r.Err? <==> size == overlap
    ensures r.Err? ==> r.error.ValueError?
    ensures size < overlap ==> r == Ok([])
    ensures AllSpace(text) && size != overlap ==> r == Ok([])
    ensures size > overlap ==> r.Ok? && |r.value| == RangeLen(|Words(text)|, size - overlap)
  {
    var words := Words(text);
    var step := size - overlap;
    if step == 0 then Err(ValueError("range() arg 3 must not be zero"))
    else if step < 0 then Ok([])
    else
      WindowsLength(words, size, step, 0);
      Ok(JoinEach(Windows(words, size, step, 0)))
  }

  /** Dropping the first `k` windows resumes the loop `k` steps after `start`. */
  lemma {:induction false} WindowsDrop<T>(words: seq<T>, size: int, step: nat, start: nat, k: nat)
    requires step > 0 && k <= |Windows(words, size, step, start)|
    ensures Windows(words, size, step, start)[k..] == Windows(words, size, step, start + Offset(k, step))
    decreases k
  {
    if k > 0 {
      var ws := Windows(words, size, step, start);
      var rest := Windows(words, size, step, start + step);
      assert ws[1..] == rest;
      assert ws[k..] == rest[k - 1..];
      WindowsDrop(words, size, step, start + step, k - 1);
    }
  }

  /** A window of words reads back, under `str.split()`, as the words it was cut from. */
  lemma {:induction false} WindowWords(words: seq<string>, a: nat, size: int)
    requires 0 < size && a < |words|
    requires forall j :: 0 <= j < |words| ==> IsWord(words[j])
    ensures Words(Join(PySlice(words, a, a + size), " ")) == words[a..Min(a + size, |words|)]
  {
    var piece := PySlice(words, a, a + size);
    assert piece == words[a..Min(a + size, |words|)];
    forall j | 0 <= j < |piece|
      ensures IsWord(piece[j])
    {
      assert piece[j] == words[a + j];
    }
    WordsOfJoin(piece);
  }

  /** Chunk `k` of `split_text` starts at word `Offset(k, size - overlap)`, which is
      `k * (size - overlap)` by `OffsetIsProduct`, and holds the `min(size, N - start)` words
      from there on. */
  lemma {:induction false} ChunkContents(text: string, size: int, overlap: int, k: nat)
    requires 0 < size && overlap < size
    requires k < |SplitText(text, size, overlap).value|
    ensures Offset(k, size - overlap) < |Words(text)|
    ensures Words(SplitText(text, size, overlap).value[k]) ==
              Words(text)[Offset(k, size - overlap)..Min(Offset(k, size - overlap) + size, |Words(text)|)]
  {
    var words := Words(text);
    var step := size - overlap;
    var cs := JoinEach(Windows(words, size, step, 0));
    assert SplitText(text, size, overlap) == Ok(cs);
    WindowContents(words, size, step, k, cs[k]);
  }

  /** Chunk `k` of the loop from the start holds the words of window `k`. */
  lemma {:induction false} WindowContents(words: seq<string>, size: int, step: nat, k: nat, chunk: string)
    requires 0 < size && 0 < step
    requires forall j :: 0 <= j < |words| ==> IsWord(words[j])
    requires k < |Windows(words, size, step, 0)|
    requires chunk == JoinEach(Windows(words, size, step, 0))[k]
    ensures Offset(k, step) < |words|
    ensures Words(chunk) == words[Offset(k, step)..Min(Offset(k, step) + size, |words|)]
  {
    WindowChunk(words, size, step, k, chunk);
    ChunkWords(words, Offset(k, step), size, chunk);
  }

  /** Chunk `k` is window `k` joined by single spaces. */
  lemma {:induction false} WindowChunk(words: seq<string>, size: int, step: nat, k: nat, chunk: string)
    requires 0 < step && k < |Windows(words, size, step, 0)|
    requires chunk == JoinEach(Windows(words, size, step, 0))[k]
    ensures Offset(k, step) < |words|
    ensures chunk == Join(PySlice(words, Offset(k, step), Offset(k, step) + size), " ")
  {
    WindowAt(words, size, step, k);
    JoinEachAt(Windows(words, size, step, 0), k);
  }

  /** Window `k` is `words[i:i + size]` for the loop value `i = Offset(k, step)`. */
  lemma {:induction false} WindowAt<T>(words: seq<T>, size: int, step: nat, k: nat)
    requires 0 < step && k < |Windows(words, size, step, 0)|
    ensures Offset(k, step) < |words|
    ensures Windows(words, size, step, 0)[k] == PySlice(words, Offset(k, step), Offset(k, step) + size)
  {
    var ws := Windows(words, size, step, 0);
    WindowsDrop(words, size, step, 0, k);
    var a := Offset(k, step);
    assert ws[k] == Windows(words, size, step, a)[0];
  }

  lemma {:induction false} ChunkWords(words: seq<string>, a: nat, size: int, chunk: string)
    requires 0 < size && a < |words|
    requires forall j :: 0 <= j < |words| ==> IsWord(words[j])
    requires chunk == Join(PySlice(words, a, a + size), " ")
    ensures Words(chunk) == words[a..Min(a + size, |words|)]
  {
    WindowWords(words, a, size);
  }

  /** The words each chunk adds that the next does not repeat: its first `step` words. */
  function Leads(chunks: seq<string>, step: nat): seq<string> {
    if chunks == [] then []
    else
      var ws := Words(chunks[0]);
      ws[..Min(step, |ws|)] + Leads(chunks[1..], step)
  }

  /** The first `step` words of a window of `size >= step` words end where the next window
      begins, and with what follows they make up the rest of the list. */
  lemma {:induction false} PrefixOfWindow<T>(words: seq<T>, start: nat, size: int, step: int)
    requires 0 < step <= size && start < |words|
    ensures var piece := words[start..Min(start + size, |words|)];
      piece[..Min(step, |piece|)] + words[Min(start + step, |words|)..] == words[start..]
  {
    var piece := words[start..Min(start + size, |words|)];
    assert piece[..Min(step, |piece|)] == words[start..Min(start + step, |words|)];
  }

  /** The chunks from `start` on contribute exactly the words from `start` on. */
  lemma {:induction false} LeadsFrom(words: seq<string>, size: int, step: nat, start: nat)
    requires 0 < step <= size && start <= |words|
    requires forall j :: 0 <= j < |words| ==> IsWord(words[j])
    ensures Leads(JoinEach(Windows(words, size, step, start)), step) == words[start..]
    decreases |words| - start
  {
    var ws := Windows(words, size, step, start);
    var cs := JoinEach(ws);
    if start < |words| {
      var next := Min(start + step, |words|);
      assert ws[1..] == Windows(words, size, step, start + step);
      assert cs[1..] == JoinEach(ws[1..]);
      if start + step <= |words| {
        LeadsFrom(words, size, step, start + step);
      }
      assert Leads(cs[1..], step) == words[next..];
      ChunkWords(words, start, size, cs[0]);
      PrefixOfWindow(words, start, size, step);
    }
  }

  /** With `0 <= overlap < size`, the first `size - overlap` words of every chunk, in order,
      are exactly the words of the text: the chunks cover it without gap or repetition. */
  lemma {:induction false} ChunksCoverWords(text: string, size: int, overlap: int)
    requires 0 <= overlap < size
    ensures Leads(SplitText(text, size, overlap).value, size - overlap) == Words(text)
  {
    var words := Words(text);
    assert SplitText(text, size, overlap).value == JoinEach(Windows(words, size, size - overlap, 0));
    LeadsFrom(words, size, size - overlap, 0);
    assert words[0..] == words;
  }

  /** `retrieve_relevant_chunks(store, query, k)`: the hits joined by single spaces. */
  function RetrieveRelevantChunks(search: Searcher, index: VectorIndex, query: string, k: nat): (r: Run<string>)
    ensures r.events == [Search(query, k)]
    ensures r.out.Ok? <==> search(index, query, k).Ok?
    ensures search(index, query, k).Ok? ==> r.out == Ok(Join(search(index, query, k).value, " "))
    ensures search(index, query, k).Err? ==> r.out == Err(search(index, query, k).error)
  {
    match search(index, query, k)
    case Err(e) => Run(Err(e), [Search(query, k)])
    case Ok(hits) => Run(Ok(Join(hits, " ")), [Search(query, k)])
  }

  /** `ZeroShotSummarizer.summarize`: mode `zero_shot` over the whole text; a blank text is
      sent like any other. */
  function ZeroShotSummarize(s: Summarizer, llm: Llm, text: string): Run<string> {
    SummarizeMode(s, llm, text, "zero_shot")
  }

  /** `RAGSummarizer.summarize`: chunk with the default sizes, index the chunks, search with
      the whole text as query, and summarize the joined hits with mode `RAG`. */
  function RagSummarize(s: Summarizer, svc: Services, text: string): (r: Run<string>)
  {
    var chunks := SplitText(text, ChunkSize, ChunkOverlap).value;
    match svc.embed(chunks)
    case Err(e) => Run(Err(e), [Embed(chunks)])
    case Ok(index) =>
      var hits := RetrieveRelevantChunks(svc.search, index, text, RagTopK);
      match hits.out
      case Err(e) => Run(Err(e), [Embed(chunks)] + hits.events)
      case Ok(relevant) =>
        var asked := SummarizeMode(s, svc.llm, relevant, "RAG");
        Run(asked.out, [Embed(chunks)] + hits.events + asked.events)
  }

  /** `MapReduceSummarizer.summarize`: map each paragraph, space-join the partial summaries
      and summarize that with mode `reduce`. */
  function MapReduceSummarize(s: Summarizer, llm: Llm, text: string): (r: Run<string>)
  {
    var mapped := AskEach(s.client.llm, s.pm, llm, "map", SplitByParagraph(text));
    match mapped.out
    case Err(e) => Run(Err(e), mapped.events)
    case Ok(partials) =>
      var reduced := SummarizeMode(s, llm, Join(partials, " "), "reduce");
      Run(reduced.out, mapped.events + reduced.events)
  }

  /** The `summarize(text)` of whichever class the summarizer is. */
  function Summarize(s: Summarizer, svc: Services, text: string): Run<string> {
    match s.kind
    case ZeroShot => ZeroShotSummarize(s, svc.llm, text)
    case Rag => RagSummarize(s, svc, text)
    case MapReduce => MapReduceSummarize(s, svc.llm, text)
  }

  /** Zero-shot makes exactly one completion on the `zero_shot` rendering of the whole text,
      blank text included, and returns its answer. */
  lemma ZeroShotOneCall(s: Summarizer, svc: Services, text: string)
    requires s.kind == ZeroShot && "zero_shot" in s.pm.prompts
    requires Render(s.pm, "zero_shot", TextField(text)).Ok?
    ensures var p := Render(s.pm, "zero_shot", TextField(text)).value;
      Summarize(s, svc, text) == Run(svc.llm(s.client.llm, p), [Complete(s.client.llm, p)])
  {
  }

  /** RAG indexes the chunks of the text, searches with the whole text at k = 3, and makes
      one `RAG` call on the space-joined hits, not on the text itself. */
  lemma RagShape(s: Summarizer, svc: Services, text: string)
    requires s.kind == Rag
    requires svc.embed(SplitText(text, 500, 50).value).Ok?
    requires svc.search(svc.embed(SplitText(text, 500, 50).value).value, text, 3).Ok?
    ensures var chunks := SplitText(text, 500, 50).value;
      var hits := svc.search(svc.embed(chunks).value, text, 3).value;
      var r := Summarize(s, svc, text);
      r.events[..2] == [Embed(chunks), Search(text, 3)] &&
      r.events[2..] == SummarizeMode(s, svc.llm, Join(hits, " "), "RAG").events &&
      r.out == SummarizeMode(s, svc.llm, Join(hits, " "), "RAG").out
  {
  }

  /** A RAG run stops at the first foreign failure, without any completion call. */
  lemma RagFailsEarly(s: Summarizer, svc: Services, text: string)
    requires s.kind == Rag
    requires svc.embed(SplitText(text, 500, 50).value).Err?
    ensures Summarize(s, svc, text).out.Err?
    ensures PromptsSent(Summarize(s, svc, text).events) == []
  {
  }

  /** A successful map-reduce run makes one `map` call per paragraph, in order, and one
      final `reduce` call on the space-joined partial summaries, whose answer it returns. */
  lemma {:induction false} MapReduceShape(s: Summarizer, llm: Llm, text: string)
    requires s.kind == MapReduce
    requires AskEach(s.client.llm, s.pm, llm, "map", SplitByParagraph(text)).out.Ok?
    requires Render(s.pm, "reduce",
               TextField(Join(AskEach(s.client.llm, s.pm, llm, "map", SplitByParagraph(text)).out.value, " "))).Ok?
    ensures var ps := SplitByParagraph(text);
      var partials := AskEach(s.client.llm, s.pm, llm, "map", ps).out.value;
      var final := Render(s.pm, "reduce", TextField(Join(partials, " "))).value;
      var r := MapReduceSummarize(s, llm, text);
      |r.events| == |ps| + 1 &&
      (forall k :: 0 <= k < |ps| ==>
        r.events[k] == Complete(s.client.llm, Render(s.pm, "map", TextField(ps[k])).value)) &&
      r.events[|ps|] == Complete(s.client.llm, final) &&
      r.out == llm(s.client.llm, final)
  {
  }
}
