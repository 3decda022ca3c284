# Summarisation pipeline of koiljat/final-year-project, modelled in Dafny

The system summarises long documents with a large language model. A user picks a
model and a strategy (zero-shot, retrieval-augmented generation, or map-reduce), the
chosen strategy turns the text into one or more prompts, and the answers come back as a
summary. The summary is cut into paragraphs that can be edited, post-processed
(simplified, shortened, rephrased, expanded) or removed. The React front end keeps a
bounded history of past summaries in `localStorage`.

This project models the logic around the model calls. Every call to a chat model, to an
embedding service, to a vector store or to a text splitter is a function-typed parameter
(an oracle). Every pipeline returns a `Run`: its outcome together with the trace of
foreign calls it made (`Complete`, `Embed`, `Search`), in order. The contracts can
therefore count the calls, fix their order and name their prompts. Python exceptions are
`Err` values of `Wrappers.Result`, one constructor per exception class.

Modules, following the source layout:

- `Wrappers` holds `Option`, `Result` and Python's `x or default` on strings.
- `Strings` holds `str.split(sep)`/JS `split(sep)`, `str.split()`, `strip`, `lower` and `join`.
- `Config` is `src/config/models.py`.
- `Template` is `PromptTemplate.format`: Python's `string.Formatter` with keyword fields, for plain `{name}` fields.
- `Prompts` is `PromptManager`.
- `Client` is the LLM client of `src/services`.
- `Completion` is "render a prompt, then call the model".
- `Summarizer` holds the three strategies and the word-window chunker.
- `PostProcessing` holds the post-processors.
- `Registry` holds the two name tables.
- `Quoter` is the quote generator.
- `Legacy` is the older `src/llm` client, post-processor and `TextSummarizer`.
- `Api` holds the FastAPI routes.
- `App` is the Streamlit application's logic.
- `Storage`, `History` and `ParagraphEditor` are the React history store, history tab and paragraph editor.

## Model

| member | source | states |
|---|---|---|
| Strings.Split | src/services/summarize/summarizer.py:24 | a separator split has at least one piece, no piece holds the separator, every piece but the last is followed by its first occurrence, and joining the pieces with the separator gives the input back |
| Strings.SplitJoin | src/services/summarize/summarizer.py:24 | splitting the join of pieces that hold no separator and are each followed by the separator's first occurrence returns exactly those pieces |
| Strings.Words | src/services/summarize/summarizer.py:48 | `str.split()` yields only whitespace-free non-empty words, and yields none iff the text is whitespace only |
| Strings.WordsOfJoin | src/services/summarize/summarizer.py:51 | splitting the single-space join of words gives back those words |
| Strings.Strip | src/app.py:609 | the stripped text has no surrounding whitespace, is empty iff the text is blank, and is a slice of the text with only whitespace cut from either end |
| Strings.StripPadded | src/app.py:609 | a stripped text between two runs of whitespace strips back to itself, so `strip` removes exactly the padding |
| Config.ProviderForModel | src/config/models.py:100-110 | a model maps to GEMINI iff it is `gemini-2.5-flash`, to PERPLEXITY iff it is `sonar`; every name outside the list falls back to OPENAI |
| Config.ValueIsLowerName | src/config/models.py:26-30 | each provider's value is its member name lower-cased |
| Config.CatalogueConsistent | src/config/models.py:34-55 | the mapping's keys are exactly the seven listed models, and the default model is one of them |
| Template.FormatOnePlaceholder | src/prompts/prompt_manager.py:17-20 | a template `a{name}b` with brace-free text around the placeholder formats to `a`, the field's value, then `b` |
| Template.FormatMissingField | src/prompts/prompt_manager.py:17-20 | formatting such a template without the field raises `KeyError` naming it |
| Template.FormatPositionalField | src/prompts/prompt_manager.py:17-20 | an empty or all-digit field, such as `{}` or `{0}`, raises `IndexError("tuple index out of range")`, because only keyword fields are given |
| Template.FormatBraceInName | src/prompts/prompt_manager.py:17-20 | a `{` inside a field name, as in `{a{b}`, raises `ValueError("unexpected '{' in field name")` |
| Prompts.DefaultPath | src/prompts/prompt_manager.py:7-9 | without a path, the file read is `prompts.yaml` inside the module's directory |
| Prompts.Load | src/prompts/prompt_manager.py:6-11 | construction succeeds iff the chosen file loads, and the manager holds exactly the mapping loaded |
| Prompts.Get | src/prompts/prompt_manager.py:14-20 | `get` raises `ValueError` iff the key is absent; otherwise the template is the stored string with input variables exactly `["text"]` |
| Prompts.Render | src/prompts/prompt_manager.py:14-20 | a missing mode fails before formatting; a present one formats its stored template |
| Prompts.RenderText | src/prompts/prompt_manager.py:14-20 | a stored template `a{text}b` renders any input to `a + text + b` |
| Client.Connect | src/services/llm_client.py:36-61 | the client is built iff the lowered name is `openai`, `perplexity` or `gemini`, with that provider and its default model when none is given; otherwise `ValueError` shows the argument as passed |
| Client.InitAsWrittenRejectsMembers | src/services/llm_client.py:30 | the constructor as written raises `AttributeError` for every `Provider` member passed to it |
| Client.Init | src/services/llm_client.py:17-61 | with no provider the client uses OpenAI; a `Provider` member selects that provider; a string is handled as written; model and temperature are kept |
| Client.InitAcceptsExactlyThree | src/services/llm_client.py:30-61 | a provider string is accepted iff its lower-case form is one of the three provider names |
| Client.SetProvider | src/services/llm_client.py:78-85 | `set_provider` fails iff the argument is neither string nor member, a string gives its lower-cased self, a member gives its value, and the chat model and model field never change |
| Client.SetModel | src/services/llm_client.py:87-96 | `set_model` changes the model field only; the chat model is not rebuilt |
| Client.RunPrompt | src/services/llm_client.py:63-76 | `run` makes exactly one completion, on the prompt given, with the client's chat model, and returns its answer |
| Client.SettersKeepBackend | src/services/llm_client.py:78-96 | after any successful `set_provider` and any `set_model`, `run` sends the same call to the same chat model as before |
| Completion.Ask | src/services/summarize/summarizer.py:19-21 | rendering failures end the step with no call; otherwise exactly one call, on the rendered prompt, whose answer is returned |
| Completion.AskEach | src/services/summarize/summarizer.py:86-88 | a successful map makes one call per piece, in piece order, each on that piece's rendering, and answer `k` is the model's answer to call `k` |
| Completion.AskSendsText | src/services/postprocessing/operations.py:4-6 | with a stored template `a{text}z`, exactly one call is made, on `a + text + z`, and its answer is returned unchanged |
| Summarizer.New | src/services/summarize/summarizer.py:15-17 | a strategy is built iff its client is, with temperature defaulting to 0 and the given model and prompts |
| Summarizer.SummarizeMode | src/services/summarize/summarizer.py:19-21 | at most one call; there is a call iff the mode renders, it is on that rendering of the text, and its answer is returned; otherwise the rendering error is |
| Summarizer.SplitByParagraph | src/services/summarize/summarizer.py:23-24 | at least one piece, none holding a blank line, and joining them with `"\n\n"` gives the text back |
| Summarizer.ParagraphsRoundTrip | src/services/summarize/summarizer.py:23-24 | paragraphs free of blank lines and not ending in a newline come back unchanged from splitting their join |
| Summarizer.SplitText | src/services/summarize/summarizer.py:46-53 | `ValueError` iff size equals overlap; no chunks when overlap exceeds size or the text has no words; otherwise one chunk per loop step |
| Summarizer.RangeLenIsCeiling | src/services/summarize/summarizer.py:50 | the loop runs ceil(N / (size - overlap)) times |
| Summarizer.ChunkContents | src/services/summarize/summarizer.py:50-52 | chunk `k` consists of the words from `k * (size - overlap)` up to `min(size, N - start)` words on |
| Summarizer.ChunksCoverWords | src/services/summarize/summarizer.py:48-52 | the first `size - overlap` words of every chunk, concatenated in order, are exactly the text's words |
| Summarizer.RetrieveRelevantChunks | src/services/summarize/summarizer.py:63-67 | one search with the given query and `k`; on success the hits joined by single spaces are returned, otherwise the search's error |
| Summarizer.ZeroShotOneCall | src/services/summarize/summarizer.py:33-34 | zero-shot makes exactly one call, on the `zero_shot` rendering of the whole text, blank text included, and returns the answer |
| Summarizer.RagShape | src/services/summarize/summarizer.py:69-74 | RAG embeds the chunks, searches with the whole text at k = 3, and makes one `RAG` call on the space-joined hits |
| Summarizer.RagFailsEarly | src/services/summarize/summarizer.py:69-74 | an indexing failure ends RAG with an error and no completion call |
| Summarizer.MapReduceShape | src/services/summarize/summarizer.py:83-91 | one `map` call per paragraph in order, then one `reduce` call on the space-joined answers: P + 1 calls, the last one's answer returned |
| PostProcessing.ModesDistinct | src/services/postprocessing/operations.py:3-24 | the four processors use four different prompt modes |
| PostProcessing.NewProcessor | src/services/postprocessing/base.py:10-12 | a processor is built iff its client is, and carries its operation and prompts |
| PostProcessing.Process | src/services/postprocessing/operations.py:3-24 | the base class raises `NotImplementedError` with no call; a subclass makes at most one call, on its own mode's rendering, and returns the answer; a missing mode raises `ValueError` first |
| PostProcessing.ProcessOneCall | src/services/postprocessing/operations.py:4-6 | with the mode's template `a{text}z`, any text, blank or not, becomes exactly one call on `a + text + z` |
| Registry.SummarizerKind | src/services/summarize/summarizers_registry.py:31 | a registered name gives its class; every other name gives zero-shot |
| Registry.GetSummarizer | src/services/summarize/summarizers_registry.py:30-32 | the keyword arguments reach the constructor unchanged; the result is of the name's class and never fails for an unknown name |
| Registry.SummarizerTable | src/services/summarize/summarizers_registry.py:12-28 | the table is exactly Default, RAG and MapReduce for the three classes, and other spellings fall back to zero-shot |
| Registry.GetPostProcessor | src/services/postprocessing/registry.py:18-22 | an unknown name raises `ValueError` naming it; a known one builds its processor from the unchanged keywords |
| Registry.PostProcessorTable | src/services/postprocessing/registry.py:11-16 | the table is exactly Simplify, Shorten, Rephrase and Expand, each running the mode that is its name lower-cased |
| Registry.PostProcessorCaseSensitive | src/services/postprocessing/registry.py:19-21 | `simplify` in lower case is refused |
| Quoter.NewQuoter | src/services/summarize/quoter.py:12-14 | a quoter is built iff its client is |
| Quoter.NonEmpty | src/services/summarize/quoter.py:23-25 | only non-empty answers are kept |
| Quoter.NonEmptyAppend | src/services/summarize/quoter.py:23-25 | the kept answers keep paragraph order |
| Quoter.NonEmptyNone | src/services/summarize/quoter.py:23-26 | nothing is kept iff every answer is empty; if none is empty, all are kept |
| Quoter.Quote | src/services/summarize/quoter.py:16-29 | a successful quote makes one call per paragraph plus one final call, whose answer is returned |
| Quoter.QuoteShape | src/services/summarize/quoter.py:19-28 | calls go paragraph by paragraph, blank ones included; all-empty answers raise `UnboundLocalError`, and "" is never returned; otherwise one `judge_quote` call on the newline-joined kept answers |
| Legacy.LegacyInit | src/llm/llm_client.py:17-42 | the legacy client accepts a provider iff it lower-cases to `openai` or `perplexity`, with defaults `gpt-4o-mini` and `sonar`; otherwise `ValueError` |
| Legacy.LegacyProviders | src/llm/llm_client.py:17-42 | with no arguments the client is Perplexity's `sonar`; `gemini` is refused here but accepted by the newer client |
| Legacy.LegacySetProvider | src/llm/llm_client.py:59-68 | the provider field is stored lower-cased and the chat model is unchanged |
| Legacy.LegacyRun | src/llm/llm_client.py:44-57 | one call on the prompt with the client's chat model, answer returned |
| Legacy.LegacySetProviderKeepsModel | src/llm/llm_client.py:59-68 | switching the provider does not switch the model that answers |
| Legacy.LegacyProcess | src/llm/postprocessing.py:14-16 | an unknown mode raises `ValueError` with no call; otherwise one call on the mode's rendering, answer returned unchanged |
| Legacy.LegacyProcessDefault | src/llm/postprocessing.py:14-16 | the default mode `default` with template `a{text}z` sends exactly `a + text + z` |
| Legacy.NewTextSummarizer | src/llm/summarise.py:14-19 | a new `TextSummarizer` has no vector store and uses `gpt-3.5-turbo` |
| Legacy.RagFromStore | src/llm/summarise.py:34-50 | a search with the query, or the fixed instruction, at k = 5; a failed search stops there; otherwise one `RAG` call on the hits joined by blank lines, whose answer is returned |
| Legacy.RagSendsJoinedHits | src/llm/summarise.py:42-50 | with a `RAG` template `a{text}z`, the one completion is on `a` + the hits joined by blank lines + `z`, and its answer is returned |
| Legacy.LegacySummarize | src/llm/summarise.py:26-59 | only `RAG` with no store changes the state, storing the index built from this text (an embedding failure stops before any search); `RAG` then runs the search-and-ask branch on the store; `MapReduce` returns `None` with no call; any other type makes the `default` call on the whole text |
| Legacy.StoreBuiltOnce | src/llm/summarise.py:30-32 | the first `RAG` call indexes its text; a later `RAG` call on another text embeds nothing and searches the first store |
| Legacy.RagDefaultQuery | src/llm/summarise.py:34-42 | without a query the fixed instruction is searched at k = 5 |
| Wrappers.OrElse | api/main.py:54 | a string field falls back when missing or empty, and is kept otherwise |
| Api.RealOr | api/main.py:55-56 | a float field falls back when missing or zero |
| Api.Defaults | api/main.py:53-59 | missing or empty fields default to `gpt-4`, `Default`, `general`, `concise`, temperature 0 and top_p 0.05 |
| Api.DefaultsOfBareInput | api/main.py:53-59 | a request with only text, or with empty strings and zeros, gets exactly those defaults |
| Api.RouteKind | api/main.py:64-74 | RAG iff the method is one of the two RAG labels; never map-reduce |
| Api.Truncate | api/main.py:68 | `int()` truncates toward zero: the result is within one of the value, on the zero side |
| Api.AudienceText | api/main.py:94 | a known audience gives its description, any other `general readers` |
| Api.StyleText | api/main.py:95 | a known style gives its instruction, any other `Keep it concise` |
| Api.AdjustmentEmbedsBase | api/main.py:97-105 | the adjustment prompt is the fixed header naming audience and style, the base summary verbatim, then the fixed trailer |
| Api.SummarizeRoute | api/main.py:61 | a model missing from the mapping raises `KeyError` before any call; there is no fallback |
| Api.RouteSummarizer | api/main.py:61-74 | the route's summarizer has the method's strategy, the model's own provider and the requested model |
| Api.SummarizeRouteShape | api/main.py:77-113 | with default audience and style the answer is the base summary; otherwise exactly one more call, on the adjustment prompt with the same chat model, whose answer is returned |
| Api.MethodDispatch | api/main.py:64-74 | `MapReduce`, the default and every unknown method run zero-shot; RAG only for the two labels |
| Api.RouteOperation | api/main.py:249-284 | the three routes never run the expand processor |
| Api.ProcessRoute | api/main.py:249-284 | an unknown model raises `KeyError`; otherwise the one call is on the route's operation rendered over the text, sent to the model's own vendor with the requested model and temperature 0, and its answer is returned |
| Api.ProcessRouteSendsText | api/main.py:249-284 | with the operation's template `a{text}z`, the route sends exactly `a + text + z` to the requested model and returns the answer |
| Api.ProcessRouteIgnoresSampling | api/main.py:249-284 | temperature and top_p make no difference to the post-processing routes |
| App.WordsAtMostChars | src/app.py:49-63 | a text never has more words than characters |
| App.CalculateMetrics | src/app.py:49-63 | the metrics are the word and character counts of both texts; the summary has no words iff it is blank |
| App.ModelIndex | src/app.py:236-238 | the selector index is the first position of the model, and the lookup fails iff the model is not listed |
| App.DefaultModelSelectable | src/app.py:236-238 | the default model is found, at position 2 |
| App.SessionSummarizer | src/app.py:106-111 | the strategy comes from the method name, the provider field from the sidebar, and the chat model is always OpenAI's |
| App.SessionAlwaysOpenAI | src/app.py:106-111 | a Gemini or Perplexity model in the sidebar still gets an OpenAI chat model; only the field changes |
| App.ProcessText | src/app.py:96-147 | the result is present iff the strategy succeeds, and then it is the strategy's answer; failures set the error status |
| App.ApplyPostProcessing | src/app.py:149-159 | never fails: an unknown operation returns the text with no call; a known one makes the processor's one call and returns its answer, or the text when the call fails |
| App.ApplyPostProcessingSendsText | src/app.py:149-159 | with the operation's template `a{text}z`, one call on `a + text + z` to OpenAI's chat model named in the sidebar; a successful answer is returned even when it equals the text, and a failed call gives the text back |
| App.StoreProcessed | src/app.py:397-398 | only paragraph `i` may change, and only when the processed text differs |
| App.Paragraphs | src/app.py:608-610 | every paragraph is non-empty, stripped, and holds no blank line |
| App.KeepStrippedEmpty | src/app.py:608-610 | nothing is kept iff every piece is blank |
| App.NoParagraphsIffBlank | src/app.py:608-611 | there are no paragraphs iff the result is whitespace only |
| App.SentenceParagraph | src/app.py:615-619 | a fallback paragraph is empty or ends with a full stop |
| App.GroupParagraphs | src/app.py:614-620 | at most one paragraph per group, each ending with a full stop |
| App.Segment | src/app.py:608-621 | a non-blank result gives its paragraphs; the fallback runs only on a blank result |
| App.SegmentOfBlank | src/app.py:611-620 | a blank non-empty result becomes the single paragraph `result + "."`, the empty one nothing |
| App.ResegmentRoundTrip | src/app.py:526-529 | re-segmenting the blank-line join of segmented paragraphs returns the same list |
| App.EditorHeight | src/app.py:357 | the paragraph editor's height is between 120 and 400 |
| App.DocumentHeight | src/app.py:451 | the document editor's height is between 500 and 1200 |
| App.HeightsMonotone | src/app.py:357 | more words never give a smaller editor |
| App.ReadMinutes | src/app.py:448 | the reading time is at least one minute |
| App.EstimatedSeconds | src/app.py:568-570 | the processing estimate is at least five seconds |
| App.Remove | src/app.py:421 | `pop(i)` removes exactly position `i` and shifts the rest |
| App.StaleConfirmation | src/app.py:413-426 | as written, after a removal at `i` the paragraph that moved into `i` goes with one click |
| App.StaleConfirmationExample | src/app.py:413-426 | three clicks on the first delete button of `a, b, c` leave only `c` |
| App.ClickRemove | src/app.py:413-426 | an unflagged click only sets the flag; a flagged one removes the paragraph and clears all flags |
| App.TwoClicksRemove | src/app.py:413-426 | two clicks remove exactly that paragraph, and the next click anywhere removes nothing |
| Storage.GetSummaries | frontend/src/services/summaryStorage.js:28-36 | the stored array, or `[]` when the key is absent or unreadable |
| Storage.GetCount | frontend/src/services/summaryStorage.js:63-65 | the count is the length of the history |
| Storage.NewRecord | frontend/src/services/summaryStorage.js:9-13 | the record has the caller's fields plus `id` and `timestamp`; the caller's fields win |
| Storage.SaveSummary | frontend/src/services/summaryStorage.js:6-25 | the new record is first, followed by the previous history cut to 49; the history never exceeds 50 and loses nothing below that |
| Storage.SaveTwice | frontend/src/services/summaryStorage.js:14-17 | two saves put the later record first and the earlier second |
| Storage.WithoutIdAppend | frontend/src/services/summaryStorage.js:42 | the filter keeps the order of the remaining records |
| Storage.WithoutIdKeeps | frontend/src/services/summaryStorage.js:39-44 | every record with another id survives, no record is invented, and an absent id leaves the history unchanged |
| Storage.DeleteSummary | frontend/src/services/summaryStorage.js:39-49 | the stored history loses exactly the records carrying the id |
| Storage.ClearAll | frontend/src/services/summaryStorage.js:52-60 | afterwards the history is empty and the count 0 |
| History.Load | frontend/src/components/HistoryTab.jsx:11-21 | the list shown is what storage holds |
| History.HandleDelete | frontend/src/components/HistoryTab.jsx:23-28 | nothing changes unless confirmed; then list and storage both lose every record with the id |
| History.HandleClearAll | frontend/src/components/HistoryTab.jsx:30-39 | nothing changes unless confirmed; then list and storage are empty |
| History.HandlersKeepSync | frontend/src/components/HistoryTab.jsx:11-39 | a list loaded from storage stays equal to storage through deletes and clears |
| History.ToggleExpanded | frontend/src/components/HistoryTab.jsx:62-64 | toggling the open summary closes it; toggling another opens that one |
| History.ToggleTwice | frontend/src/components/HistoryTab.jsx:62-64 | toggling the same id twice restores the state iff nothing or that id was open |
| History.TruncateText | frontend/src/components/HistoryTab.jsx:77-80 | a text that fits is unchanged; a longer one keeps its first `maxLength` characters and gains `...`, `maxLength + 3` in all |
| History.TruncateBound | frontend/src/components/HistoryTab.jsx:77-80 | a preview is at most `maxLength + 3` long, and previewing it again changes nothing |
| History.SummaryPreview | frontend/src/components/HistoryTab.jsx:164-167 | a collapsed entry shows at most 153 characters: the whole summary when it fits in 150, otherwise its first 150 and `...` |
| History.OriginalPreview | frontend/src/components/HistoryTab.jsx:151-157 | an expanded entry shows at most 303 characters of the original; a missing or empty original shows the placeholder text |
| ParagraphEditor.ReplaceAt | frontend/src/components/ParagraphEditor.jsx:7 | the assignment replaces position `index` only, and past the end grows the array with empty holes |
| ParagraphEditor.ParagraphAt | frontend/src/components/ParagraphEditor.jsx:26 | the paragraph sent exists iff the index is inside the array |
| ParagraphEditor.HandleChange | frontend/src/components/ParagraphEditor.jsx:4-10 | a TypeError iff there is no result; otherwise only the first result changes |
| ParagraphEditor.ReplaceKeepsOthers | frontend/src/components/ParagraphEditor.jsx:6-8 | a new value that contains no `###` and, unless it is the last paragraph, does not end in `#`, keeps the paragraph count and changes only position `index` |
| ParagraphEditor.TrailingHashMerges | frontend/src/components/ParagraphEditor.jsx:6-8 | writing `x#` over the first of the paragraphs `x`, `y` makes the result split again as `x`, `#y`: a `#` at the end of a paragraph runs into the marker |
| ParagraphEditor.WriteBackUnchanged | frontend/src/components/ParagraphEditor.jsx:6-8 | writing a paragraph's own text back leaves the results identical |
| ParagraphEditor.OperationsMapRoutes | frontend/src/components/ParagraphEditor.jsx:16-20 | the three buttons reach the routes whose prompt mode is the label lower-cased |
| ParagraphEditor.HandlePostProcess | frontend/src/components/ParagraphEditor.jsx:12-39 | an unknown operation sends nothing and changes nothing; a known one sends one request, succeeds iff the request does (otherwise it fails with the request's error), and changes only the first result |
| ParagraphEditor.PostProcessReplacesOnly | frontend/src/components/ParagraphEditor.jsx:35-38 | the answer replaces only paragraph `index`; the others are unchanged |
| ParagraphEditor.PostProcessWithoutSummary | frontend/src/components/ParagraphEditor.jsx:35-38 | an answer without `summary` empties paragraph `index` and leaves the others |

## Left out

- Model, embedding, vector-store and splitter calls are oracles. Their answers, similarity ranking and `RecursiveCharacterTextSplitter` are not modelled.
- Floating-point settings are carried as reals and never computed with: temperature, `top_p` and the real-valued estimates.
- Api.Truncate: states only the bounds of `int()` on a float, not that the result is an integer.
- Logging, `load_dotenv`, API keys, timeouts, `fake_progress`, timers and the wall clock are not modelled. `Date.now()` and the ISO time are parameters of `Storage.SaveSummary`.
- Streamlit and React rendering is not modelled. This covers widgets, Markdown view, CSS, reruns, success and warning messages, and downloads.
- PDF parsing, OCR and file upload are I/O. This covers `parse_pdf`, `src/app.py:168-225` and `src/backend/main.py`.
- Export is not modelled: `exportService.js` and the per-paragraph and document downloads.
- The image section (`visualizer.py`) is not modelled.
- The scraping script is not modelled.
- The `try`/`except` around segmentation (`src/app.py:607-626`) is not modelled. Nothing inside it can raise for a string result, so its single-paragraph fallback is unreachable.
- Template.Format handles plain `{name}` fields only. A name holding `!`, `:`, `.` or `[` is looked up whole, so conversions, format specs and attribute or index lookups are not modelled. Only ASCII digits count as a positional index.
- Strings.Lower lower-cases ASCII letters only. All names the program compares are ASCII.
- Storage.GetSummaries: stored JSON that parses to something other than an array is not modelled. The store only ever holds arrays the program wrote. Write failures such as a full quota are not modelled either.
- History.TruncateText counts characters, not UTF-16 code units as JavaScript's `length` does.
- History.ToggleTwice: toggling twice restores the state only when nothing or that same summary was open. With another summary open, the second toggle closes everything. The contract states this exact condition.
- `Legacy.TextSummarizer`'s `split_by_paragraph` (`src/llm/summarise.py:61-62`) is the same `"\n\n"` split as `Summarizer.SplitByParagraph`. It is not modelled twice.
- The constructor of the legacy `PostProcessor` is not modelled separately. `Legacy.LegacyProcess` takes an already built legacy client.
- The `/summarize` and post-processing routes are modelled as the corrected `Client.Init`; the as-written constructor would make every route fail (see Findings).
- ParagraphEditor's request body and JSON handling are reduced to `Post(route, text, model)` and a fetch oracle. A failed request or JSON parse is an `Err`; an answer without `summary` empties the paragraph.
- ParagraphEditor.ReplaceKeepsOthers: a `###`-free value does not always keep the other paragraphs. A value that is not the last paragraph and ends in `#` joins with the next marker, and the split shifts by one character (`ParagraphEditor.TrailingHashMerges`). The lemma therefore also requires that such a value not end in `#`.
- A JSON `undefined` model in the request body is not distinguished from a model string.

## Findings

| source | as written | input that shows it | evidently intended | confidence | as-written member | corrected member |
|---|---|---|---|---|---|---|
| src/services/llm_client.py:30 | `provider.lower()` is called on the argument as passed, but `api/main.py` passes a `Provider` enum member | any `/summarize`, `/shorten`, `/simplify` or `/rephrase` request with a known model, e.g. model `gpt-4` passes `Provider.OPENAI` and raises `AttributeError` | normalise a member to `provider.name.lower()`, as `set_provider` does | not executed | Client.InitAsWrittenRejectsMembers | Client.Init |
| src/app.py:413-426 | the `confirm_delete_{i}` flag is set on the first click and never cleared after `pop(i)` | paragraphs `a, b, c`: two clicks on the first delete button remove `a`, and one more click removes `b` | clear the confirmation flags when a paragraph is removed | not executed | App.StaleConfirmation | App.ClickRemove |
