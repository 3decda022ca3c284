/** The string operations the program leans on, with Python's and JavaScript's meaning:
    separator splitting and joining, whitespace splitting, stripping and lower-casing.
 */
module Strings {

  /** Python's `str.isspace` for one character: the characters `str.split()` and
      `str.strip()` treat as whitespace. */
  predicate IsSpace(c: char) {
    var n := c as int;
    || (9 <= n <= 13)
    || (28 <= n <= 32)
    || n == 0x85 || n == 0xA0 || n == 0x1680
    || (0x2000 <= n <= 0x200A)
    || n == 0x2028 || n == 0x2029 || n == 0x202F || n == 0x205F || n == 0x3000
  }

  predicate AllSpace(s: string) {
    forall i :: 0 <= i < |s| ==> IsSpace(s[i])
  }

  predicate HasNoSpace(s: string) {
    forall i :: 0 <= i < |s| ==> !IsSpace(s[i])
  }

  /** An element of `s.split()`: a non-empty run without whitespace. */
  predicate IsWord(w: string) {
    |w| > 0 && HasNoSpace(w)
  }

  /** No whitespace at either end (what `str.strip()` returns). */
  predicate IsStripped(s: string) {
    s == "" || (!IsSpace(s[0]) && !IsSpace(s[|s| - 1]))
  }

  predicate EndsWith(s: string, c: char) {
    |s| > 0 && s[|s| - 1] == c
  }

  /** Lower-casing of ASCII letters; every other character is kept. */
  function LowerChar(c: char): char {
    if 'A' <= c <= 'Z' then (c as int + 32) as char else c
  }

  function Lower(s: string): string {
    seq(|s|, i requires 0 <= i < |s| => LowerChar(s[i]))
  }

  // ---------------------------------------------------------------- occurrences

  /** `t` occurs in `s` starting at index `j`. */
  predicate OccursAt(s: string, t: string, j: int) {
    0 <= j && j + |t| <= |s| && s[j..j + |t|] == t
  }

  /** Python's `t in s`. */
  predicate Contains(s: string, t: string) {
    exists j :: 0 <= j <= |s| - |t| && OccursAt(s, t, j)
  }

  /** The first occurrence of `t` in `s` at or after `i`, or -1. */
  function IndexFrom(s: string, t: string, i: nat): (r: int)
    ensures r == -1 || (i <= r && OccursAt(s, t, r))
    ensures forall j :: i <= j && (r == -1 || j < r) ==> !OccursAt(s, t, j)
    decreases |s| - i
  {
    if i + |t| > |s| then -1
    else if s[i..i + |t|] == t then i
    else IndexFrom(s, t, i + 1)
  }

  /** Python's `s.find(t)`: the leftmost occurrence of `t`, or -1 when there is none. */
  function IndexOf(s: string, t: string): (r: int)
    ensures r == -1 || OccursAt(s, t, r)
    ensures forall j :: 0 <= j && (r == -1 || j < r) ==> !OccursAt(s, t, j)
  {
    IndexFrom(s, t, 0)
  }

  lemma ContainsIffFound(s: string, t: string)
    ensures Contains(s, t) <==> IndexOf(s, t) >= 0
  {
  }

  /** An occurrence inside a slice is an occurrence in the whole string. */
  lemma {:induction false} ContainsSlice(s: string, a: int, b: int, t: string)
    requires 0 <= a <= b <= |s|
    ensures Contains(s[a..b], t) ==> Contains(s, t)
  {
    forall j | 0 <= j <= (b - a) - |t| && OccursAt(s[a..b], t, j)
      ensures OccursAt(s, t, a + j)
    {
      OccursInSlice(s, a, b, t, j);
    }
  }

  lemma {:induction false} OccursInSlice(s: string, a: int, b: int, t: string, j: int)
    requires 0 <= a <= b <= |s| && OccursAt(s[a..b], t, j)
    ensures OccursAt(s, t, a + j)
  {
    var u := s[a..b];
    assert u[j..j + |t|] == t;
    forall i | 0 <= i < |t|
      ensures s[a + j + i] == t[i]
    {
      assert u[j + i] == s[a + j + i];
      assert u[j..j + |t|][i] == u[j + i];
    }
    assert s[a + j..a + j + |t|] == t;
  }

  // ---------------------------------------------------------------- split and join

  /** Python's `sep.join(ps)` and JavaScript's `ps.join(sep)`. */
  function Join(ps: seq<string>, sep: string): string {
    if |ps| == 0 then ""
    else if |ps| == 1 then ps[0]
    else ps[0] + sep + Join(ps[1..], sep)
  }

  /** `p + sep` contains `sep` only at its end: no occurrence of the separator starts
      inside `p`, not even one that runs on into the separator placed after it. */
  predicate Separable(p: string, sep: string) {
    forall j :: 0 <= j < |p| ==> !OccursAt(p + sep, sep, j)
  }

  /** `s.split(sep)` in Python and JavaScript, for a non-empty separator: cut at every
      leftmost, non-overlapping occurrence of `sep`. */
  function Split(s: string, sep: string): (r: seq<string>)
    requires |sep| > 0
    ensures |r| >= 1
    ensures Join(r, sep) == s
    ensures forall k :: 0 <= k < |r| ==> !Contains(r[k], sep)
    ensures forall k :: 0 <= k < |r| - 1 ==> Separable(r[k], sep)
    decreases |s|
  {
    var i := IndexOf(s, sep);
    if i < 0 then
      [s]
    else
      PieceBeforeFirst(s, sep, i);
      var rest := Split(s[i + |sep|..], sep);
      assert s == s[..i] + sep + s[i + |sep|..] by {
        assert s[i..i + |sep|] == sep;
      }
      [s[..i]] + rest
  }

  /** The piece cut off before the first occurrence holds no separator and is separable. */
  lemma {:induction false} PieceBeforeFirst(s: string, sep: string, i: int)
    requires |sep| > 0 && OccursAt(s, sep, i)
    requires forall j :: 0 <= j < i ==> !OccursAt(s, sep, j)
    ensures !Contains(s[..i], sep)
    ensures Separable(s[..i], sep)
  {
    forall j | 0 <= j <= i - |sep|
      ensures !OccursAt(s[..i], sep, j)
    {
      assert s[..i][j..j + |sep|] == s[j..j + |sep|];
      assert !OccursAt(s, sep, j);
    }
    var p := s[..i] + sep;
    assert p == s[..i + |sep|];
    forall j | 0 <= j < i
      ensures !OccursAt(p, sep, j)
    {
      assert p[j..j + |sep|] == s[j..j + |sep|];
      assert !OccursAt(s, sep, j);
    }
  }

  /** A separable piece followed by the separator: the first occurrence is right after it. */
  lemma {:induction false} FirstOccurrence(p: string, sep: string, rest: string)
    requires |sep| > 0 && Separable(p, sep)
    ensures IndexOf(p + sep + rest, sep) == |p|
  {
    var s := p + sep + rest;
    assert s[|p|..|p| + |sep|] == sep;
    assert OccursAt(s, sep, |p|);
    assert p + sep == s[..|p| + |sep|];
    forall j | 0 <= j < |p|
      ensures !OccursAt(s, sep, j)
    {
      assert s[j..j + |sep|] == (p + sep)[j..j + |sep|];
      assert !OccursAt(p + sep, sep, j);
    }
  }

  /** Joining pieces and splitting again gives the pieces back, provided no piece holds the
      separator and none but the last ends in a way that forms one with the next separator. */
  lemma {:induction false} SplitJoin(ps: seq<string>, sep: string)
    requires |sep| > 0 && |ps| >= 1
    requires forall k :: 0 <= k < |ps| - 1 ==> Separable(ps[k], sep)
    requires !Contains(ps[|ps| - 1], sep)
    ensures Split(Join(ps, sep), sep) == ps
    decreases |ps|
  {
    var s := Join(ps, sep);
    if |ps| == 1 {
      assert IndexOf(s, sep) == -1;
    } else {
      var p := ps[0];
      var rest := Join(ps[1..], sep);
      assert s == p + sep + rest;
      FirstOccurrence(p, sep, rest);
      assert s[..|p|] == p;
      assert s[|p| + |sep|..] == rest;
      SplitJoin(ps[1..], sep);
    }
  }

  /** A piece without the separator whose last character is not in the separator is separable. */
  lemma {:induction false} SeparableByLastChar(p: string, sep: string)
    requires |sep| > 0 && !Contains(p, sep)
    requires p == "" || p[|p| - 1] !in sep
    ensures Separable(p, sep)
  {
    forall j | 0 <= j < |p|
      ensures !OccursAt(p + sep, sep, j)
    {
      if j + |sep| <= |p| {
        assert (p + sep)[j..j + |sep|] == p[j..j + |sep|];
        assert !OccursAt(p, sep, j);
      } else {
        // an occurrence starting at j would cover the last character of p
        var o := |p| - 1 - j;
        assert 0 <= o < |sep|;
        assert (p + sep)[j..j + |sep|][o] == p[|p| - 1];
        assert sep[o] in sep;
      }
    }
  }

  // ---------------------------------------------------------------- whitespace words

  /** Length of the leading run of non-whitespace characters. */
  function RunLength(s: string): (n: nat)
    ensures n <= |s|
    ensures forall i :: 0 <= i < n ==> !IsSpace(s[i])
    ensures n == |s| || IsSpace(s[n])
  {
    if |s| == 0 || IsSpace(s[0]) then 0 else 1 + RunLength(s[1..])
  }

  /** Python's `s.split()` with no argument: the maximal runs of non-whitespace, in order. */
  function Words(s: string): (ws: seq<string>)
    ensures forall k :: 0 <= k < |ws| ==> IsWord(ws[k])
    ensures ws == [] <==> AllSpace(s)
    decreases |s|
  {
    if |s| == 0 then []
    else if IsSpace(s[0]) then
      var ws := Words(s[1..]);
      assert AllSpace(s) <==> AllSpace(s[1..]) by {
        assert forall i :: 1 <= i < |s| ==> s[i] == s[1..][i - 1];
      }
      ws
    else
      var n := RunLength(s);
      [s[..n]] + Words(s[n..])
  }

  lemma {:induction false} WordsOfWordThen(w: string, t: string)
    requires IsWord(w)
    requires t == "" || IsSpace(t[0])
    ensures Words(w + t) == [w] + Words(t)
  {
    var s := w + t;
    var n := RunLength(s);
    assert forall i :: 0 <= i < |w| ==> s[i] == w[i];
    assert |t| > 0 ==> s[|w|] == t[0];
    assert n == |w|;
    assert s[..|w|] == w;
    assert s[|w|..] == t;
  }

  /** Space-joining words and splitting on whitespace gives the words back. */
  lemma {:induction false} WordsOfJoin(ws: seq<string>)
    requires forall k :: 0 <= k < |ws| ==> IsWord(ws[k])
    ensures Words(Join(ws, " ")) == ws
  {
    if |ws| == 1 {
      WordsOfWordThen(ws[0], "");
      assert ws[0] + "" == ws[0];
    } else if |ws| > 1 {
      var rest := Join(ws[1..], " ");
      assert Join(ws, " ") == ws[0] + (" " + rest);
      WordsOfWordThen(ws[0], " " + rest);
      assert (" " + rest)[1..] == rest;
      WordsOfJoin(ws[1..]);
    }
  }

  // ---------------------------------------------------------------- strip

  /** The number of leading whitespace characters. */
  function LeadingSpace(s: string): (n: nat)
    ensures n <= |s|
    ensures forall i :: 0 <= i < n ==> IsSpace(s[i])
    ensures n == |s| || !IsSpace(s[n])
  {
    if |s| > 0 && IsSpace(s[0]) then 1 + LeadingSpace(s[1..]) else 0
  }

  /** Where the trailing whitespace of `s` begins. */
  function TrailingStart(s: string): (n: nat)
    ensures n <= |s|
    ensures forall i :: n <= i < |s| ==> IsSpace(s[i])
    ensures n == 0 || !IsSpace(s[n - 1])
  {
    if |s| > 0 && IsSpace(s[|s| - 1]) then TrailingStart(s[..|s| - 1]) else |s|
  }

  /** Python's `s.strip()`: `s` without its leading and trailing whitespace. */
  function Strip(s: string): (r: string)
    ensures IsStripped(r)
    ensures r == "" <==> AllSpace(s)
    ensures forall t :: Contains(r, t) ==> Contains(s, t)
    ensures exists a, b :: 0 <= a <= b <= |s| && r == s[a..b] && AllSpace(s[..a]) && AllSpace(s[b..])
  {
    var a := LeadingSpace(s);
    var b := a + TrailingStart(s[a..]);
    var r := s[a..b];
    assert AllSpace(s[..a]) && AllSpace(s[b..]) by {
      assert forall i :: b <= i < |s| ==> s[i] == s[a..][i - a];
    }
    assert r != "" ==> r[0] == s[a] && r[|r| - 1] == s[a..][b - a - 1];
    assert AllSpace(s) ==> a == |s|;
    assert a < |s| ==> s[a..][0] == s[a];
    assert a == b ==> a == |s|;
    forall t | Contains(r, t)
      ensures Contains(s, t)
    {
      ContainsSlice(s, a, b, t);
    }
    r
  }

  lemma {:induction false} LeadingSpaceAfter(p: string, rest: string)
    requires AllSpace(p)
    ensures LeadingSpace(p + rest) == |p| + LeadingSpace(rest)
    decreases |p|
  {
    if p != [] {
      assert (p + rest)[1..] == p[1..] + rest;
      LeadingSpaceAfter(p[1..], rest);
    } else {
      assert p + rest == rest;
    }
  }

  lemma {:induction false} TrailingStartBefore(rest: string, q: string)
    requires AllSpace(q)
    ensures TrailingStart(rest + q) == TrailingStart(rest)
    decreases |q|
  {
    if q != [] {
      var w := rest + q;
      assert w[|w| - 1] == q[|q| - 1];
      assert w[..|w| - 1] == rest + q[..|q| - 1];
      TrailingStartBefore(rest, q[..|q| - 1]);
    } else {
      assert rest + q == rest;
    }
  }

  lemma {:induction false} AllSpaceAppend(a: string, b: string)
    ensures AllSpace(a + b) <==> AllSpace(a) && AllSpace(b)
  {
    assert forall i :: 0 <= i < |a| ==> (a + b)[i] == a[i];
    assert forall i :: 0 <= i < |b| ==> (a + b)[|a| + i] == b[i];
  }

  /** `Strip` cuts where the leading run ends and where the trailing run of the rest begins. */
  lemma {:induction false} StripAt(s: string, a: nat, n: nat)
    requires LeadingSpace(s) == a && TrailingStart(s[a..]) == n
    ensures Strip(s) == s[a..a + n]
  {
  }

  /** `strip` removes exactly the padding: a stripped text between two runs of whitespace
      comes back as it was. */
  lemma {:induction false} StripPadded(p: string, t: string, q: string)
    requires AllSpace(p) && AllSpace(q) && IsStripped(t)
    ensures Strip(p + t + q) == t
  {
    if t == "" {
      assert p + t + q == p + q;
      AllSpaceAppend(p, q);
    } else {
      var rest := t + q;
      assert p + t + q == p + rest;
      StripOfPrefixed(p, rest, t, q);
    }
  }

  lemma {:induction false} StripOfPrefixed(p: string, rest: string, t: string, q: string)
    requires AllSpace(p) && AllSpace(q) && IsStripped(t) && t != "" && rest == t + q
    ensures Strip(p + rest) == t
  {
    LeadOfPadded(p, rest);
    TrailOfPadded(t, q);
    CutOfPadded(p, rest, |t|);
    StripAt(p + rest, |p|, |t|);
  }

  lemma {:induction false} LeadOfPadded(p: string, rest: string)
    requires AllSpace(p) && rest != "" && !IsSpace(rest[0])
    ensures LeadingSpace(p + rest) == |p|
  {
    LeadingSpaceAfter(p, rest);
  }

  lemma {:induction false} TrailOfPadded(t: string, q: string)
    requires AllSpace(q) && IsStripped(t) && t != ""
    ensures TrailingStart(t + q) == |t|
  {
    TrailingStartBefore(t, q);
  }

  lemma {:induction false} CutOfPadded(p: string, rest: string, n: nat)
    requires n <= |rest|
    ensures (p + rest)[|p|..] == rest
    ensures (p + rest)[|p|..|p| + n] == rest[..n]
  {
  }

  /** Stripping leaves an already stripped string unchanged. */
  lemma StripStripped(s: string)
    requires IsStripped(s)
    ensures Strip(s) == s
  {
  }

}
