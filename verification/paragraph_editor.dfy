/** `frontend/src/components/ParagraphEditor.jsx`: one editor per `###`-separated paragraph
    of the first result. Typing writes the paragraph back into that result; the Shorten,
    Simplify and Rephrase buttons send the paragraph to the matching API route and write
    the answer back in its place. */
module ParagraphEditor {
  import opened Wrappers
  import opened Strings
  import opened PostProcessing
  import opened Api

  /** The marker the summaries use between paragraphs. */
  const Marker: string := "###"

  /** The TypeError a handler raises when there is no first result to split. */
  const NoFirstResult: string := "Cannot read properties of undefined (reading 'split')"

  /** `paragraphs[index] = value`: inside the array an element is replaced; past its end
      the array grows, and the holes it leaves join as empty strings. */
  function ReplaceAt(ps: seq<string>, index: nat, value: string): (r: seq<string>)
    ensures |r| == if index < |ps| then |ps| else index + 1
    ensures r[index] == value
    ensures forall k :: 0 <= k < |ps| && k != index ==> r[k] == ps[k]
    ensures forall k :: |ps| <= k < |r| && k != index ==> r[k] == ""
  {
    if index < |ps| then ps[index := value]
    else ps + seq(index - |ps|, _ => "") + [value]
  }

  /** The paragraph an editor shows: `paragraphs[index]`, `undefined` past the end. */
  function ParagraphAt(ps: seq<string>, index: nat): (p: Option<string>)
    ensures p.Some? <==> index < |ps|
    ensures p.Some? ==> p.value == ps[index]
  {
    if index < |ps| then Some(ps[index]) else None
  }

  /** The results with their first element rewritten from its paragraphs. */
  function WriteBack(result: seq<string>, ps: seq<string>): (r: seq<string>)
    requires result != []
    ensures |r| == |result| && r[1..] == result[1..]
    ensures r[0] == Join(ps, Marker)
  {
    result[0 := Join(ps, Marker)]
  }

  /** `handleChange`: the edited paragraph replaces paragraph `index` of the first result;
      every other result is kept. With no results the split raises a TypeError. */
  function HandleChange(result: seq<string>, index: nat, value: string): (r: Result<seq<string>>)
    ensures r.Err? <==> result == []
    ensures r.Err? ==> r.error == TypeError(NoFirstResult)
    ensures r.Ok? ==> |r.value| == |result| && r.value[1..] == result[1..]
    ensures r.Ok? ==> r.value[0] == Join(ReplaceAt(Split(result[0], Marker), index, value), Marker)
  {
    if result == [] then Err(TypeError(NoFirstResult))
    else Ok(WriteBack(result, ReplaceAt(Split(result[0], Marker), index, value)))
  }

  /** A paragraph that can stand between markers: it holds no marker, and unless it is the
      last one it does not end in `#`, which would run into the marker after it. */
  predicate Placeable(value: string, last: bool) {
    !Contains(value, Marker) && (last || value == "" || value[|value| - 1] != '#')
  }

  /** After a paragraph is replaced by a placeable one, splitting the first result again
      gives the old paragraphs with only that one changed: the other editors keep their text
      and their positions. */
  lemma {:induction false} ReplaceKeepsOthers(s: string, index: nat, value: string)
    requires index < |Split(s, Marker)|
    requires Placeable(value, index == |Split(s, Marker)| - 1)
    ensures Split(Join(ReplaceAt(Split(s, Marker), index, value), Marker), Marker) ==
              ReplaceAt(Split(s, Marker), index, value)
  {
    var ps := Split(s, Marker);
    var qs := ReplaceAt(ps, index, value);
    if index < |ps| - 1 {
      assert value == "" || value[|value| - 1] !in Marker;
      SeparableByLastChar(value, Marker);
    }
    assert forall k :: 0 <= k < |qs| - 1 ==> Separable(qs[k], Marker);
    assert !Contains(qs[|qs| - 1], Marker);
    SplitJoin(qs, Marker);
  }

  /** Why a value that is not the last must not end in `#`: writing `x#` over the first of
      the paragraphs `x`, `y` gives `x####y`, which splits again as `x`, `#y`. */
  lemma TrailingHashMerges()
    ensures ReplaceAt(["x", "y"], 0, "x#") == ["x#", "y"]
    ensures !Contains("x#", Marker)
    ensures Split(Join(["x#", "y"], Marker), Marker) == ["x", "#y"]
  {
    var s := Join(["x#", "y"], Marker);
    assert s == "x####y";
    assert s[0] == 'x' && Marker[0] == '#';
    assert s[0..3] != Marker by { assert s[0..3][0] != Marker[0]; }
    assert s[1..4] == Marker;
    assert IndexFrom(s, Marker, 0) == IndexFrom(s, Marker, 1);
    assert IndexOf(s, Marker) == 1;
    assert s[4..] == "#y" && s[..1] == "x";
    assert IndexOf("#y", Marker) == -1;
    assert Split("#y", Marker) == ["#y"];
    assert Split(s, Marker) == [s[..1]] + Split(s[4..], Marker);
  }

  /** Typing a paragraph's own text back into its editor leaves the results as they were. */
  lemma {:induction false} WriteBackUnchanged(result: seq<string>, index: nat)
    requires result != [] && index < |Split(result[0], Marker)|
    ensures HandleChange(result, index, Split(result[0], Marker)[index]) == Ok(result)
  {
    var ps := Split(result[0], Marker);
    assert ReplaceAt(ps, index, ps[index]) == ps;
    assert result[0 := result[0]] == result;
  }

  /** `operationsMap`: the three labels the buttons send and their routes. */
  const OperationsMap: map<string, Route> := map[
    "Shorten" := ShortenRoute,
    "Simplify" := SimplifyRoute,
    "Rephrase" := RephraseRoute
  ]

  /** Each button's route runs the post-processor whose prompt is the label in lower case. */
  lemma OperationsMapRoutes()
    ensures OperationsMap.Keys == {"Shorten", "Simplify", "Rephrase"}
    ensures forall name :: name in OperationsMap ==> ModeOf(RouteOperation(OperationsMap[name])) == Lower(name)
  {
    assert Lower("Shorten") == "shorten";
    assert Lower("Simplify") == "simplify";
    assert Lower("Rephrase") == "rephrase";
  }

  /** The POST the handler sends: the route, `{text, model}` (a missing paragraph leaves
      `text` out of the body), and the selected model. */
  datatype Post = Post(route: Route, text: Option<string>, model: string)

  /** The server's answer to a POST: `Err` when the request or `response.json()` rejects,
      otherwise the body's `summary` field, `None` when the body has none. */
  type Fetch = Post -> Result<Option<string>>

  /** The handler's effect: the new results (unchanged ones when it returns early) or the
      error it rejects with, and the requests it sent. */
  datatype Posted = Posted(out: Result<seq<string>>, posts: seq<Post>)

  /** `handlePostProcess(operation)`: split the first result, send the paragraph to the
      operation's route, and put the answer's `summary` in the paragraph's place (an answer
      without one leaves the paragraph empty). An unknown operation sends nothing and
      changes nothing. */
  function HandlePostProcess(result: seq<string>, index: nat, operation: string, model: string, fetch: Fetch): (r: Posted)
    ensures result == [] ==> r == Posted(Err(TypeError(NoFirstResult)), [])
    ensures result != [] && operation !in OperationsMap ==> r == Posted(Ok(result), [])
    ensures result != [] && operation in OperationsMap ==>
              r.posts == [Post(OperationsMap[operation], ParagraphAt(Split(result[0], Marker), index), model)]
    ensures result != [] && operation in OperationsMap ==>
              (r.out.Ok? <==> fetch(r.posts[0]).Ok?) &&
              (r.out.Err? ==> r.out.error == fetch(r.posts[0]).error)
    ensures r.out.Ok? ==> |r.out.value| == |result| && r.out.value[1..] == result[1..]
    ensures r.out.Ok? && r.posts != [] ==>
              fetch(r.posts[0]).Ok? &&
              r.out.value[0] == Join(ReplaceAt(Split(result[0], Marker), index, fetch(r.posts[0]).value.GetOr("")), Marker)
  {
    if result == [] then Posted(Err(TypeError(NoFirstResult)), [])
    else
      var ps := Split(result[0], Marker);
      if operation !in OperationsMap then Posted(Ok(result), [])
      else
        var post := Post(OperationsMap[operation], ParagraphAt(ps, index), model);
        match fetch(post)
        case Err(e) => Posted(Err(e), [post])
        case Ok(summary) => Posted(Ok(WriteBack(result, ReplaceAt(ps, index, summary.GetOr("")))), [post])
  }

  /** A placeable answer for an existing paragraph replaces that paragraph and nothing else:
      re-splitting the new first result gives the old paragraphs with the answer at `index`. */
  lemma {:induction false} PostProcessReplacesOnly(result: seq<string>, index: nat, operation: string, model: string, fetch: Fetch)
    requires result != [] && operation in OperationsMap
    requires index < |Split(result[0], Marker)|
    requires var answer := fetch(Post(OperationsMap[operation], Some(Split(result[0], Marker)[index]), model));
      answer.Ok? && answer.value.Some? && Placeable(answer.value.value, index == |Split(result[0], Marker)| - 1)
    ensures var ps := Split(result[0], Marker);
      var answer := fetch(Post(OperationsMap[operation], Some(ps[index]), model)).value.value;
      var r := HandlePostProcess(result, index, operation, model, fetch);
      r.out.Ok? && Split(r.out.value[0], Marker) == ps[index := answer] &&
      r.posts == [Post(OperationsMap[operation], Some(ps[index]), model)]
  {
    var ps := Split(result[0], Marker);
    var answer := fetch(Post(OperationsMap[operation], Some(ps[index]), model)).value.value;
    ReplaceKeepsOthers(result[0], index, answer);
  }

  /** An answer without a `summary` empties the paragraph: re-splitting the new first result
      gives the old paragraphs with `""` at `index`. */
  lemma {:induction false} PostProcessWithoutSummary(result: seq<string>, index: nat, operation: string, model: string, fetch: Fetch)
    requires result != [] && operation in OperationsMap
    requires index < |Split(result[0], Marker)|
    requires fetch(Post(OperationsMap[operation], Some(Split(result[0], Marker)[index]), model)) == Ok(None)
    ensures var ps := Split(result[0], Marker);
      var r := HandlePostProcess(result, index, operation, model, fetch);
      r.out.Ok? && Split(r.out.value[0], Marker) == ps[index := ""]
  {
    assert !Contains("", Marker);
    ReplaceKeepsOthers(result[0], index, "");
  }
}
