/** `frontend/src/services/summaryStorage.js`: the summary history kept as one JSON array
    under a single `localStorage` key, newest first and at most fifty long. */
module Storage {
  /** A JSON scalar as the history records hold them. */
  datatype Value = Num(n: int) | Str(s: string)

  /** A history record: a JSON object. */
  type Record = map<string, Value>

  /** What the storage key holds: nothing, an array the program wrote, or text that
      `JSON.parse` rejects (the empty string, which `stored ? … : []` treats as absent,
      behaves the same). */
  datatype Slot = Absent | Json(records: seq<Record>) | Unparsable(raw: string)

  const HistoryLimit: nat := 50

  /** `getSummaries()`: the stored array, or `[]` when the key is absent or unreadable. */
  function GetSummaries(slot: Slot): (rs: seq<Record>)
    ensures slot.Json? ==> rs == slot.records
    ensures !slot.Json? ==> rs == []
  {
    match slot
    case Json(records) => records
    case _ => []
  }

  /** `getCount()`. */
  function GetCount(slot: Slot): (n: nat)
    ensures n == |GetSummaries(slot)|
    ensures !slot.Json? ==> n == 0
  {
    |GetSummaries(slot)|
  }

  /** The record `{id, timestamp, ...summaryData}`: the caller's fields are spread last, so
      they override the generated `id` and `timestamp`. */
  function NewRecord(data: Record, now: int, isoTime: string): (r: Record)
    ensures r.Keys == data.Keys + {"id", "timestamp"}
    ensures forall k :: k in data ==> r[k] == data[k]
    ensures "id" !in data ==> r["id"] == Num(now)
    ensures "timestamp" !in data ==> r["timestamp"] == Str(isoTime)
  {
    map["id" := Num(now), "timestamp" := Str(isoTime)] + data
  }

  /** The first `n` elements, or all of them when there are fewer (`slice(0, n)`). */
  function Take(rs: seq<Record>, n: nat): (t: seq<Record>)
    ensures |t| == if |rs| < n then |rs| else n
    ensures t == rs[..|t|]
  {
    if |rs| <= n then rs else rs[..n]
  }

  datatype Saved = Saved(slot: Slot, record: Record)

  /** `saveSummary(summaryData)`, with `Date.now()` and the ISO time passed in: the new
      record goes in front of the history and the array is cut to fifty. */
  function SaveSummary(slot: Slot, data: Record, now: int, isoTime: string): (s: Saved)
    ensures s.record == NewRecord(data, now, isoTime)
    ensures var after := GetSummaries(s.slot);
      var before := GetSummaries(slot);
      |after| >= 1 && |after| <= HistoryLimit && after[0] == s.record &&
      after[1..] == Take(before, HistoryLimit - 1) &&
      (|before| < HistoryLimit ==> after[1..] == before)
  {
    var record := NewRecord(data, now, isoTime);
    var updated := [record] + GetSummaries(slot);
    var limited := Take(updated, HistoryLimit);
    assert limited[1..] == Take(GetSummaries(slot), HistoryLimit - 1);
    Saved(Json(limited), record)
  }

  /** `item.id !== id`: a record without an `id` is never equal to one. */
  predicate HasId(r: Record, id: Value) {
    "id" in r && r["id"] == id
  }

  /** `history.filter(item => item.id !== id)`. */
  function WithoutId(rs: seq<Record>, id: Value): (kept: seq<Record>)
    ensures |kept| <= |rs|
    ensures forall i :: 0 <= i < |kept| ==> !HasId(kept[i], id)
  {
    if rs == [] then []
    else if HasId(rs[0], id) then WithoutId(rs[1..], id)
    else [rs[0]] + WithoutId(rs[1..], id)
  }

  /** The filter distributes over concatenation, so the kept records stay in order. */
  lemma {:induction false} WithoutIdAppend(a: seq<Record>, b: seq<Record>, id: Value)
    ensures WithoutId(a + b, id) == WithoutId(a, id) + WithoutId(b, id)
    decreases |a|
  {
    if a == [] {
      assert a + b == b;
    } else {
      assert (a + b)[0] == a[0];
      assert (a + b)[1..] == a[1..] + b;
      WithoutIdAppend(a[1..], b, id);
    }
  }

  /** Exactly the records with another id survive: each of them is still there, and when
      no record has the id the list is unchanged. */
  lemma {:induction false} WithoutIdKeeps(rs: seq<Record>, id: Value)
    ensures forall r :: r in rs && !HasId(r, id) ==> r in WithoutId(rs, id)
    ensures forall r :: r in WithoutId(rs, id) ==> r in rs
    ensures (forall i :: 0 <= i < |rs| ==> !HasId(rs[i], id)) ==> WithoutId(rs, id) == rs
    decreases |rs|
  {
    if rs != [] {
      var rest := WithoutId(rs[1..], id);
      WithoutIdKeeps(rs[1..], id);
      assert rs == [rs[0]] + rs[1..];
      if HasId(rs[0], id) {
        assert WithoutId(rs, id) == rest;
      } else {
        assert WithoutId(rs, id) == [rs[0]] + rest;
      }
    }
  }

  /** `deleteSummary(id)`: the history without the records carrying that id. */
  function DeleteSummary(slot: Slot, id: Value): (s: Slot)
    ensures s.Json? && s.records == WithoutId(GetSummaries(slot), id)
  {
    Json(WithoutId(GetSummaries(slot), id))
  }

  /** `clearAll()`: the key is removed. */
  function ClearAll(slot: Slot): (s: Slot)
    ensures GetSummaries(s) == [] && GetCount(s) == 0
  {
    Absent
  }

  /** Saving twice keeps the two newest records in front, newest first, within the bound. */
  lemma SaveTwice(slot: Slot, d1: Record, d2: Record, t1: int, t2: int, iso1: string, iso2: string)
    ensures var s1 := SaveSummary(slot, d1, t1, iso1);
      var s2 := SaveSummary(s1.slot, d2, t2, iso2);
      var h := GetSummaries(s2.slot);
      |h| >= 2 && h[0] == s2.record && h[1] == s1.record && GetCount(s2.slot) <= HistoryLimit
  {
  }
}
