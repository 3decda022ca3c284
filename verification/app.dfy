/** The Streamlit front end `src/app.py`: the text metrics, running a strategy for the
    session, post-processing a paragraph, cutting the result into paragraphs (with its
    sentence-grouping fallback), the editor's size and time estimates, and the two-click
    paragraph removal. */
module App {
  import opened Wrappers
  import opened Strings
  import opened Config
  import opened Client
  import opened Template
  import opened Prompts
  import opened Summarizer
  import opened PostProcessing
  import opened Registry

  // ---------------------------------------------------------------- metrics

  /** Every whitespace word takes at least one character. */
  lemma {:induction false} WordsAtMostChars(s: string)
    ensures |Words(s)| <= |s|
    decreases |s|
  {
    if |s| > 0 {
      if IsSpace(s[0]) {
        WordsAtMostChars(s[1..]);
      } else {
        var n := RunLength(s);
        WordsAtMostChars(s[n..]);
      }
    }
  }

  datatype Metrics = Metrics(originalWords: nat, summaryWords: nat, originalChars: nat, summaryChars: nat)

  /** `calculate_metrics`: whitespace-word counts and character counts of both texts. */
  function CalculateMetrics(original: string, summary: string): (m: Metrics)
    ensures m.originalWords == |Words(original)| && m.summaryWords == |Words(summary)|
    ensures m.originalChars == |original| && m.summaryChars == |summary|
    ensures m.originalWords <= m.originalChars && m.summaryWords <= m.summaryChars
    ensures m.summaryWords == 0 <==> AllSpace(summary)
  {
    WordsAtMostChars(original);
    WordsAtMostChars(summary);
    Metrics(|Words(original)|, |Words(summary)|, |original|, |summary|)
  }

  // ---------------------------------------------------------------- session

  /** The session values the pipeline reads: the model picked in the sidebar, its
      temperature, and the provider the sidebar derived from the model. */
  datatype Session = Session(modelName: string, temperature: real, provider: Provider)

  /** `AVAILABLE_MODELS.index(name)`: the first position of the name, or `ValueError`. */
  function ModelIndex(name: string): (r: Result<nat>)
    ensures r.Ok? <==> name in AvailableModels
    ensures r.Ok? ==> r.value < |AvailableModels| && AvailableModels[r.value] == name
    ensures r.Ok? ==> forall j :: 0 <= j < r.value ==> AvailableModels[j] != name
  {
    IndexIn(AvailableModels, name, 0)
  }

  function IndexIn(xs: seq<string>, x: string, from: nat): (r: Result<nat>)
    requires from <= |xs|
    requires forall j :: 0 <= j < from ==> xs[j] != x
    ensures r.Ok? <==> x in xs
    ensures r.Ok? ==> r.value < |xs| && xs[r.value] == x && forall j :: 0 <= j < r.value ==> xs[j] != x
    decreases |xs| - from
  {
    if from == |xs| then Err(ValueError("'" + x + "' is not in list"))
    else if xs[from] == x then Ok(from)
    else IndexIn(xs, x, from + 1)
  }

  /** The sidebar's first render, with no model chosen yet, selects the default model. */
  lemma DefaultModelSelectable()
    ensures ModelIndex(DefaultModel) == Ok(2)
  {
    assert AvailableModels[2] == DefaultModel;
    assert AvailableModels[0] != DefaultModel && AvailableModels[1] != DefaultModel;
  }

  /** The summarizer `process_text` builds: `get_summarizer(method, model=..., temperature=...)`
      without a provider, then `set_provider` with the sidebar's provider. */
  function SessionSummarizer(sess: Session, methodName: string, pm: PromptManager): (s: Summarizer)
    ensures s.kind == SummarizerKind(methodName) && s.pm == pm
    ensures s.client.provider == sess.provider.Value()
    ensures s.client.llm == Backend(OPENAI, OrElse(Some(sess.modelName), "gpt-4o-mini"), sess.temperature)
  {
    var s := GetSummarizer(methodName, ClientArgs(None, Some(sess.modelName), Some(sess.temperature), None), pm).value;
    s.(client := SetProvider(s.client, Member(sess.provider)).value)
  }

  /** Even with a Gemini or Perplexity model chosen, the chat model that answers is OpenAI's:
      only the `provider` field follows the sidebar. */
  lemma SessionAlwaysOpenAI(sess: Session, methodName: string, pm: PromptManager)
    ensures SessionSummarizer(sess, methodName, pm).client.llm.vendor == OPENAI
    ensures sess.provider == GEMINI ==> SessionSummarizer(sess, methodName, pm).client.provider == "gemini"
  {
  }

  datatype Status = Finished | Failed

  /** What `process_text` leaves behind: the returned value, the processing status, and the
      calls made. */
  datatype Outcome = Outcome(result: Option<string>, status: Status, events: seq<Event>)

  /** `process_text(method, text)`: any exception is caught, reported, and turned into `None`
      with status `error`. */
  function ProcessText(sess: Session, methodName: string, text: string, pm: PromptManager, svc: Services): (o: Outcome)
    ensures o.events == Summarize(SessionSummarizer(sess, methodName, pm), svc, text).events
    ensures o.result.Some? <==> o.status == Finished
    ensures o.result.Some? <==> Summarize(SessionSummarizer(sess, methodName, pm), svc, text).out.Ok?
    ensures o.result.Some? ==> o.result.value == Summarize(SessionSummarizer(sess, methodName, pm), svc, text).out.value
  {
    var run := Summarize(SessionSummarizer(sess, methodName, pm), svc, text);
    match run.out
    case Err(_) => Outcome(None, Failed, run.events)
    case Ok(v) => Outcome(Some(v), Finished, run.events)
  }

  // ---------------------------------------------------------------- post-processing

  /** `apply_post_processing(operation, text)`: any failure, an unknown operation included,
      is reported and the text is returned unchanged. */
  function ApplyPostProcessing(sess: Session, operation: string, text: string, pm: PromptManager, llm: Llm): (r: Run<string>)
    ensures r.out.Ok?
    ensures operation !in PostProcessors ==> r == Run(Ok(text), [])
    ensures |r.events| <= 1
    ensures r.out.value != text ==>
              |r.events| == 1 && r.events[0].Complete? && llm(r.events[0].backend, r.events[0].prompt) == r.out
    ensures operation in PostProcessors ==>
              var p := GetPostProcessor(operation, ClientArgs(None, Some(sess.modelName), Some(sess.temperature), None), pm);
              p.Ok? && r.events == Process(p.value, llm, text).events &&
              r.out == (if Process(p.value, llm, text).out.Ok? then Process(p.value, llm, text).out else Ok(text))
  {
    var args := ClientArgs(None, Some(sess.modelName), Some(sess.temperature), None);
    match GetPostProcessor(operation, args, pm)
    case Err(_) => Run(Ok(text), [])
    case Ok(p) =>
      var a := Process(p, llm, text);
      match a.out
      case Err(_) => Run(Ok(text), a.events)
      case Ok(v) => Run(Ok(v), a.events)
  }

  /** With the operation's template `a{text}z`, post-processing in the app makes one call, on
      `a + text + z`, to OpenAI's chat model named by the sidebar; a successful answer is
      returned even when it equals the text, and a failed call gives the text back. */
  lemma {:induction false} ApplyPostProcessingSendsText(sess: Session, operation: string, text: string, pm: PromptManager, llm: Llm, a: string, z: string)
    requires operation in PostProcessors
    requires var mode := ModeOf(PostProcessors[operation]);
      mode in pm.prompts && pm.prompts[mode] == a + "{text}" + z
    requires BraceFree(a) && BraceFree(z)
    ensures var b := Backend(OPENAI, OrElse(Some(sess.modelName), "gpt-4o-mini"), sess.temperature);
      var r := ApplyPostProcessing(sess, operation, text, pm, llm);
      r.events == [Complete(b, a + text + z)] &&
      (llm(b, a + text + z).Ok? ==> r.out == llm(b, a + text + z)) &&
      (llm(b, a + text + z).Err? ==> r.out == Ok(text))
  {
    var p := GetPostProcessor(operation, ClientArgs(None, Some(sess.modelName), Some(sess.temperature), None), pm).value;
    ProcessOneCall(p, llm, text, a, z);
  }

  /** Lines 397-398: the paragraph is replaced only when the processed text differs. */
  function StoreProcessed(paras: seq<string>, i: nat, edited: string, processed: string): (r: seq<string>)
    requires i < |paras|
    ensures |r| == |paras|
    ensures forall j :: 0 <= j < |paras| && j != i ==> r[j] == paras[j]
    ensures r[i] == (if processed != edited then processed else paras[i])
  {
    if processed != edited then paras[i := processed] else paras
  }

  // ---------------------------------------------------------------- segmentation

  /** `[p.strip() for p in pieces if p.strip()]`. */
  function KeepStripped(pieces: seq<string>): (ps: seq<string>)
    ensures |ps| <= |pieces|
    ensures forall k :: 0 <= k < |ps| ==> ps[k] != "" && IsStripped(ps[k])
  {
    if pieces == [] then []
    else if Strip(pieces[0]) == "" then KeepStripped(pieces[1..])
    else [Strip(pieces[0])] + KeepStripped(pieces[1..])
  }

  /** The paragraphs of a result: its `"\n\n"` pieces, stripped, blank ones dropped. */
  function Paragraphs(result: string): (ps: seq<string>)
    ensures forall k :: 0 <= k < |ps| ==> ps[k] != "" && IsStripped(ps[k])
    ensures forall k :: 0 <= k < |ps| ==> !Contains(ps[k], "\n\n")
  {
    var ps := KeepStripped(SplitByParagraph(result));
    forall k | 0 <= k < |ps|
      ensures !Contains(ps[k], "\n\n")
    {
      KeptAreStripped(SplitByParagraph(result), k);
    }
    ps
  }

  /** Every kept paragraph is the strip of some piece. */
  lemma {:induction false} KeptAreStripped(pieces: seq<string>, k: nat)
    requires k < |KeepStripped(pieces)|
    requires forall i :: 0 <= i < |pieces| ==> !Contains(pieces[i], "\n\n")
    ensures !Contains(KeepStripped(pieces)[k], "\n\n")
    decreases |pieces|
  {
    if Strip(pieces[0]) == "" {
      KeptAreStripped(pieces[1..], k);
    } else if k > 0 {
      KeptAreStripped(pieces[1..], k - 1);
    }
  }

  /** Nothing is kept exactly when every piece is blank. */
  lemma {:induction false} KeepStrippedEmpty(pieces: seq<string>)
    ensures KeepStripped(pieces) == [] <==> forall i :: 0 <= i < |pieces| ==> AllSpace(pieces[i])
    decreases |pieces|
  {
    if pieces != [] {
      KeepStrippedEmpty(pieces[1..]);
      assert forall i :: 1 <= i < |pieces| ==> pieces[i] == pieces[1..][i - 1];
    }
  }

  /** Stripped, non-empty strings are kept as they are. */
  lemma {:induction false} KeepStrippedKeeps(ps: seq<string>)
    requires forall k :: 0 <= k < |ps| ==> ps[k] != "" && IsStripped(ps[k])
    ensures KeepStripped(ps) == ps
    decreases |ps|
  {
    if ps != [] {
      StripStripped(ps[0]);
      KeepStrippedKeeps(ps[1..]);
    }
  }

  /** A join with a whitespace separator is blank exactly when every piece is. */
  lemma {:induction false} AllSpaceJoin(ps: seq<string>, sep: string)
    requires AllSpace(sep) && |ps| >= 1
    ensures AllSpace(Join(ps, sep)) <==> forall i :: 0 <= i < |ps| ==> AllSpace(ps[i])
    decreases |ps|
  {
    if |ps| > 1 {
      var rest := Join(ps[1..], sep);
      AllSpaceJoin(ps[1..], sep);
      AllSpaceAppend(ps[0] + sep, rest);
      AllSpaceAppend(ps[0], sep);
      assert forall i :: 1 <= i < |ps| ==> ps[i] == ps[1..][i - 1];
    }
  }

  /** Only whitespace-only results have no paragraph. */
  lemma {:induction false} NoParagraphsIffBlank(result: string)
    ensures Paragraphs(result) == [] <==> AllSpace(result)
  {
    var pieces := SplitByParagraph(result);
    KeepStrippedEmpty(pieces);
    assert AllSpace("\n\n");
    AllSpaceJoin(pieces, "\n\n");
  }

  /** One fallback paragraph: the sentences joined by `". "`, with a final full stop added
      when missing. */
  function SentenceParagraph(group: seq<string>): (p: string)
    ensures p == "" || EndsWith(p, '.')
  {
    var para := Join(group, ". ");
    if para != "" && !EndsWith(para, '.') then para + "." else para
  }

  /** The non-empty paragraphs of the sentence groups, in order. */
  function GroupParagraphs(groups: seq<seq<string>>): (ps: seq<string>)
    ensures |ps| <= |groups|
    ensures forall k :: 0 <= k < |ps| ==> EndsWith(ps[k], '.')
  {
    if groups == [] then []
    else
      var p := SentenceParagraph(groups[0]);
      (if p != "" then [p] else []) + GroupParagraphs(groups[1..])
  }

  /** Lines 612-620: split on `". "` and join runs of three sentences. */
  function SentenceFallback(result: string): (ps: seq<string>)
    ensures forall k :: 0 <= k < |ps| ==> EndsWith(ps[k], '.')
  {
    GroupParagraphs(Windows(Split(result, ". "), 3, 3, 0))
  }

  /** Lines 608-621: the paragraphs, or the sentence fallback when there are none. */
  function Segment(result: string): (ps: seq<string>)
    ensures !AllSpace(result) ==> ps == Paragraphs(result)
    ensures AllSpace(result) ==> ps == SentenceFallback(result)
  {
    NoParagraphsIffBlank(result);
    var paragraphs := Paragraphs(result);
    if paragraphs == [] then SentenceFallback(result) else paragraphs
  }

  /** The fallback only ever runs on a whitespace-only result, which holds no `". "`: it
      becomes the single paragraph `result + "."`, or nothing for the empty string. */
  lemma {:induction false} SegmentOfBlank(result: string)
    requires AllSpace(result)
    ensures result != "" ==> Segment(result) == [result + "."]
    ensures result == "" ==> Segment(result) == []
  {
    StopIsNotSpace(result, IndexOf(result, ". "));
    assert Split(result, ". ") == [result];
    var groups := Windows([result], 3, 3, 0);
    assert groups == [[result]] by {
      assert Windows([result], 3, 3, 3) == [];
      assert PySlice([result], 0, 3) == [result];
    }
    assert Join([result], ". ") == result;
    if result != "" {
      assert !EndsWith(result, '.') by {
        assert IsSpace(result[|result| - 1]);
      }
      assert GroupParagraphs(groups) == [result + "."] by {
        assert groups[1..] == [];
      }
    } else {
      assert GroupParagraphs(groups) == [] by {
        assert groups[1..] == [];
      }
    }
  }

  /** A sentence break starts with a full stop, which is not whitespace. */
  lemma StopIsNotSpace(s: string, j: int)
    ensures OccursAt(s, ". ", j) ==> !AllSpace(s)
  {
    if OccursAt(s, ". ", j) {
      assert s[j] == s[j..j + 2][0];
    }
  }

  /** Line 438 joins the paragraphs with blank lines and lines 526-529 cut the edited text
      again: paragraphs as segmentation produces them come back unchanged. */
  lemma {:induction false} ResegmentRoundTrip(ps: seq<string>)
    requires forall k :: 0 <= k < |ps| ==> ps[k] != "" && IsStripped(ps[k])
    requires forall k :: 0 <= k < |ps| ==> !Contains(ps[k], "\n\n")
    ensures Paragraphs(Join(ps, "\n\n")) == ps
  {
    if ps == [] {
      assert SplitByParagraph("") == [""];
      assert Strip("") == "";
    } else {
      forall k | 0 <= k < |ps| - 1
        ensures !EndsWith(ps[k], '\n')
      {
        assert IsSpace('\n');
      }
      ParagraphsRoundTrip(ps);
      KeepStrippedKeeps(ps);
    }
  }

  // ---------------------------------------------------------------- estimates

  function Max(a: int, b: int): int {
    if a >= b then a else b
  }

  /** Line 357: the height of a paragraph's text area for a paragraph of `words` words. */
  function EditorHeight(words: nat): (h: int)
    ensures 120 <= h <= 400
    ensures words < 15 ==> h == 120
    ensures words >= 180 ==> h == 400
  {
    Max(120, Min(400, 120 + (words / 15) * 25))
  }

  /** Line 451: the height of the whole-document editor. */
  function DocumentHeight(words: nat): (h: int)
    ensures 500 <= h <= 1200
    ensures words < 50 ==> h == 500
    ensures words >= 1200 ==> h == 1200
  {
    Max(500, Min(1200, 500 + (words / 50) * 30))
  }

  /** More words never give a smaller editor. */
  lemma HeightsMonotone(a: nat, b: nat)
    requires a <= b
    ensures EditorHeight(a) <= EditorHeight(b)
    ensures DocumentHeight(a) <= DocumentHeight(b)
  {
    assert a / 15 <= b / 15;
    assert a / 50 <= b / 50;
  }

  /** Line 448: minutes to read, at 200 words a minute, never below one. */
  function ReadMinutes(words: nat): (m: int)
    ensures m >= 1
    ensures words >= 400 ==> m == words / 200
  {
    Max(1, words / 200)
  }

  /** Lines 568-570: the processing estimate in seconds, never below five. */
  function EstimatedSeconds(words: nat): (t: int)
    ensures t >= 5
    ensures words >= 1800 ==> t == words / 300
  {
    Max(5, words / 300)
  }

  // ---------------------------------------------------------------- paragraph removal

  /** The paragraph list and the indices whose `confirm_delete_{i}` flag is set. */
  datatype Editor = Editor(paras: seq<string>, confirm: set<nat>)

  function Remove(ps: seq<string>, i: nat): (r: seq<string>)
    requires i < |ps|
    ensures |r| == |ps| - 1
    ensures forall j :: 0 <= j < i ==> r[j] == ps[j]
    ensures forall j :: i <= j < |r| ==> r[j] == ps[j + 1]
  {
    ps[..i] + ps[i + 1..]
  }

  /** Lines 413-426 as written: a click on a flagged index pops it, otherwise it sets the
      flag; no flag is ever cleared. */
  function ClickRemoveAsWritten(e: Editor, i: nat): (r: Editor)
    requires i < |e.paras|
  {
    if i in e.confirm then Editor(Remove(e.paras, i), e.confirm)
    else Editor(e.paras, e.confirm + {i})
  }

  /** After a confirmed removal at `i`, the flag of `i` survives, so the paragraph that moved
      up into position `i` is removed by a single click. */
  lemma StaleConfirmation(e: Editor, i: nat)
    requires i in e.confirm && i + 1 < |e.paras|
    ensures var once := ClickRemoveAsWritten(e, i);
      i < |once.paras| && once.paras[i] == e.paras[i + 1] &&
      ClickRemoveAsWritten(once, i).paras == Remove(once.paras, i)
  {
  }

  /** The concrete case: three paragraphs, three clicks on the first delete button. The
      second paragraph goes after one click of its own. */
  lemma StaleConfirmationExample()
    ensures var e := Editor(["a", "b", "c"], {});
      var one := ClickRemoveAsWritten(e, 0);
      var two := ClickRemoveAsWritten(one, 0);
      var three := ClickRemoveAsWritten(two, 0);
      one.paras == ["a", "b", "c"] && two.paras == ["b", "c"] && three.paras == ["c"]
  {
    var e := Editor(["a", "b", "c"], {});
    assert Remove(["a", "b", "c"], 0) == ["b", "c"];
    assert Remove(["b", "c"], 0) == ["c"];
  }

  /** The removal with the evident intent: popping a paragraph clears every flag, since the
      indices after it now name other paragraphs. */
  function ClickRemove(e: Editor, i: nat): (r: Editor)
    requires i < |e.paras|
    ensures i !in e.confirm ==> r == Editor(e.paras, e.confirm + {i})
    ensures i in e.confirm ==> r == Editor(Remove(e.paras, i), {})
  {
    if i in e.confirm then Editor(Remove(e.paras, i), {})
    else Editor(e.paras, e.confirm + {i})
  }

  /** With the correction, two clicks on an unflagged paragraph remove exactly it, and after
      any removal the next click, wherever it lands, removes nothing. */
  lemma TwoClicksRemove(e: Editor, i: nat, j: nat)
    requires i < |e.paras| && i !in e.confirm
    ensures ClickRemove(ClickRemove(e, i), i).paras == Remove(e.paras, i)
    ensures j < |e.paras| - 1 ==> ClickRemove(ClickRemove(ClickRemove(e, i), i), j).paras == Remove(e.paras, i)
  {
  }
}
