/** `frontend/src/components/HistoryTab.jsx`: the history list on screen, which summary is
    expanded, and the delete and clear-all handlers behind a confirmation dialog. */
module History {
  import opened Wrappers
  import opened Storage

  /** The component's state (`summaries`, `expandedId`) and the storage slot it writes. */
  datatype HistoryView = HistoryView(summaries: seq<Record>, expanded: Option<Value>, slot: Slot)

  /** The effect that loads the list when the tab becomes active. */
  function Load(v: HistoryView): (w: HistoryView)
    ensures w.summaries == GetSummaries(v.slot) && w.slot == v.slot && w.expanded == v.expanded
  {
    v.(summaries := GetSummaries(v.slot))
  }

  /** The list on screen is what storage holds. */
  predicate InSync(v: HistoryView) {
    v.summaries == GetSummaries(v.slot)
  }

  /** `handleDelete(id)`, with the answer of `window.confirm` passed in: only a confirmed
      delete changes anything, and then both storage and the list lose every record with
      the id. */
  function HandleDelete(v: HistoryView, id: Value, confirmed: bool): (w: HistoryView)
    ensures !confirmed ==> w == v
    ensures confirmed ==> w.summaries == WithoutId(v.summaries, id) && w.expanded == v.expanded
    ensures confirmed ==> GetSummaries(w.slot) == WithoutId(GetSummaries(v.slot), id)
  {
    if confirmed then HistoryView(WithoutId(v.summaries, id), v.expanded, DeleteSummary(v.slot, id))
    else v
  }

  /** `handleClearAll()`: a confirmed clear empties storage and the list. */
  function HandleClearAll(v: HistoryView, confirmed: bool): (w: HistoryView)
    ensures !confirmed ==> w == v
    ensures confirmed ==> w.summaries == [] && GetSummaries(w.slot) == [] && w.expanded == v.expanded
  {
    if confirmed then v.(summaries := [], slot := ClearAll(v.slot)) else v
  }

  /** A list loaded from storage stays equal to storage through deletes and clears. */
  lemma HandlersKeepSync(v: HistoryView, id: Value, c1: bool, c2: bool)
    requires InSync(v)
    ensures InSync(Load(v))
    ensures InSync(HandleDelete(v, id, c1))
    ensures InSync(HandleClearAll(v, c2))
  {
  }

  /** `toggleExpanded(id)`: the expanded summary closes; any other one opens instead. */
  function ToggleExpanded(expanded: Option<Value>, id: Value): (e: Option<Value>)
    ensures expanded == Some(id) ==> e == None
    ensures expanded != Some(id) ==> e == Some(id)
  {
    if expanded == Some(id) then None else Some(id)
  }

  /** Toggling the same summary twice restores the state exactly when nothing or that same
      summary was expanded; with another one open, it ends closed. */
  lemma ToggleTwice(expanded: Option<Value>, id: Value)
    ensures ToggleExpanded(ToggleExpanded(expanded, id), id) == expanded <==>
              expanded == None || expanded == Some(id)
    ensures expanded.Some? && expanded != Some(id) ==> ToggleExpanded(ToggleExpanded(expanded, id), id) == None
  {
  }

  const PreviewLength: nat := 150
  const OriginalPreviewLength: nat := 300

  /** `truncateText(text, maxLength)`: short texts unchanged, longer ones cut to `maxLength`
      characters followed by an ellipsis. */
  function TruncateText(text: string, maxLength: nat): (r: string)
    ensures |text| <= maxLength ==> r == text
    ensures |text| > maxLength ==> |r| == maxLength + 3 && r[maxLength..] == "..."
    ensures |r| >= Min(|text|, maxLength) && r[..Min(|text|, maxLength)] == text[..Min(|text|, maxLength)]
  {
    if |text| <= maxLength then text else text[..maxLength] + "..."
  }

  function Min(a: nat, b: nat): nat {
    if a <= b then a else b
  }

  /** The collapsed entry's preview, `truncateText(summary.summary)` with the default limit:
      at most 153 characters, a summary that fits shown whole, a longer one by its first 150. */
  function SummaryPreview(summary: string): (p: string)
    ensures |p| <= PreviewLength + 3
    ensures |summary| <= PreviewLength ==> p == summary
    ensures |summary| > PreviewLength ==> p == summary[..PreviewLength] + "..."
  {
    TruncateText(summary, PreviewLength)
  }

  const NoOriginalText: string := "No original text available"

  /** The expanded entry's original text, `truncateText(summary.originalText || "No original
      text available", 300)`: a missing or empty original shows the placeholder whole. */
  function OriginalPreview(original: Option<string>): (p: string)
    ensures |p| <= OriginalPreviewLength + 3
    ensures original.None? || original == Some("") ==> p == NoOriginalText
    ensures original.Some? && 0 < |original.value| <= OriginalPreviewLength ==> p == original.value
    ensures original.Some? && |original.value| > OriginalPreviewLength ==>
              p == original.value[..OriginalPreviewLength] + "..."
  {
    TruncateText(OrElse(original, NoOriginalText), OriginalPreviewLength)
  }

  /** A preview is never longer than the limit plus the ellipsis, and previewing a preview
      with the same limit changes nothing. */
  lemma {:induction false} TruncateBound(text: string, maxLength: nat)
    ensures |TruncateText(text, maxLength)| <= maxLength + 3
    ensures TruncateText(TruncateText(text, maxLength), maxLength) == TruncateText(text, maxLength)
  {
    if |text| > maxLength {
      var t := TruncateText(text, maxLength);
      assert t[..maxLength] == text[..maxLength];
      assert t == t[..maxLength] + "...";
    }
  }
}
