/**
 * The handful of Python `str` operations the request handlers rely on:
 * `strip()`, `startswith`, `split(sep)` (with `Join` as its inverse) and
 * f-string interpolation (`Fill`).
 */
module Text {

  /** Python's `str.isspace()` for one character, the set `str.strip()` removes. */
  predicate IsSpace(c: char) {
    || c == ' '
    || ('\t' <= c <= '\r')
    || ('\U{1C}' <= c <= '\U{1F}')
    || c == '\U{85}'
    || c == '\U{A0}'
    || c == '\U{1680}'
    || ('\U{2000}' <= c <= '\U{200A}')
    || c == '\U{2028}'
    || c == '\U{2029}'
    || c == '\U{202F}'
    || c == '\U{205F}'
    || c == '\U{3000}'
  }

  /** Neither the first nor the last character is whitespace. */
  predicate Trimmed(s: string) {
    s == [] || (!IsSpace(s[0]) && !IsSpace(s[|s| - 1]))
  }

  /** The first index at or after `i` that does not hold whitespace (`|s|` if there is none). */
  function SkipSpaces(s: string, i: nat): (j: nat)
    requires i <= |s|
    ensures i <= j <= |s|
    ensures forall k :: i <= k < j ==> IsSpace(s[k])
    ensures j == |s| || !IsSpace(s[j])
    decreases |s| - i
  {
    if i < |s| && IsSpace(s[i]) then SkipSpaces(s, i + 1) else i
  }

  /** Where `s[lo..j]` ends once its trailing whitespace is dropped. */
  function TrimEnd(s: string, lo: nat, j: nat): (e: nat)
    requires lo <= j <= |s|
    ensures lo <= e <= j
    ensures forall k :: e <= k < j ==> IsSpace(s[k])
    ensures e == lo || !IsSpace(s[e - 1])
    decreases j
  {
    if lo < j && IsSpace(s[j - 1]) then TrimEnd(s, lo, j - 1) else j
  }

  /** `s.lstrip()`: the suffix left after dropping leading whitespace. */
  function LStrip(s: string): (r: string)
    ensures |r| <= |s| && r == s[|s| - |r|..]
    ensures forall k :: 0 <= k < |s| - |r| ==> IsSpace(s[k])
    ensures r == [] || !IsSpace(r[0])
  {
    s[SkipSpaces(s, 0)..]
  }

  /** `s.rstrip()`: the prefix left after dropping trailing whitespace. */
  function RStrip(s: string): (r: string)
    ensures |r| <= |s| && r == s[..|r|]
    ensures forall k :: |r| <= k < |s| ==> IsSpace(s[k])
    ensures r == [] || !IsSpace(r[|r| - 1])
  {
    s[..TrimEnd(s, 0, |s|)]
  }

  /**
   * `s.strip()`: the slice of `s` that starts at its first and ends at its
   * last non-whitespace character; everything cut off is whitespace.
   */
  function Strip(s: string): (r: string)
    ensures var a := SkipSpaces(s, 0); a + |r| <= |s| && r == s[a..a + |r|]
    ensures forall k :: 0 <= k < SkipSpaces(s, 0) ==> IsSpace(s[k])
    ensures forall k :: SkipSpaces(s, 0) + |r| <= k < |s| ==> IsSpace(s[k])
    ensures Trimmed(r)
  {
    var a := SkipSpaces(s, 0);
    s[a..TrimEnd(s, a, |s|)]
  }

  /** Where `strip()` cuts: the result is the slice of `s` starting at `a`. */
  lemma StripSlice(s: string) returns (a: nat)
    ensures a + |Strip(s)| <= |s| && Strip(s) == s[a..a + |Strip(s)|]
  {
    a := SkipSpaces(s, 0);
  }

  /** `strip()` changes exactly the strings that have outer whitespace. */
  lemma StripFixpoint(s: string)
    ensures Strip(s) == s <==> Trimmed(s)
  {
    if Trimmed(s) {
      assert SkipSpaces(s, 0) == 0;
      assert TrimEnd(s, 0, |s|) == |s|;
      assert s[0..|s|] == s;
    }
  }

  /** Stripping twice is stripping once. */
  lemma StripIdempotent(s: string)
    ensures Strip(Strip(s)) == Strip(s)
  {
    StripFixpoint(Strip(s));
  }

  /** Without leading whitespace, `strip()` is `rstrip()`. */
  lemma StripUnpadded(s: string)
    requires s == [] || !IsSpace(s[0])
    ensures Strip(s) == RStrip(s)
  {
    assert SkipSpaces(s, 0) == 0;
    assert s[0..TrimEnd(s, 0, |s|)] == s[..TrimEnd(s, 0, |s|)];
  }

  /** Trailing whitespace of `p + q` past the end of `p` is found in `q`. */
  lemma {:induction false} TrimEndAppend(p: string, q: string, j: nat)
    requires p != [] && !IsSpace(p[|p| - 1])
    requires |p| <= j <= |p| + |q|
    ensures TrimEnd(p + q, 0, j) == |p| + TrimEnd(q, 0, j - |p|)
    decreases j
  {
    if j == |p| {
      assert (p + q)[j - 1] == p[|p| - 1];
    } else {
      assert (p + q)[j - 1] == q[j - 1 - |p|];
      if IsSpace(q[j - 1 - |p|]) {
        TrimEndAppend(p, q, j - 1);
      }
    }
  }

  /** Whitespace appended after a last non-whitespace character is cut by `rstrip()`. */
  lemma RStripAppend(p: string, q: string)
    requires p != [] && !IsSpace(p[|p| - 1])
    ensures RStrip(p + q) == p + RStrip(q)
  {
    TrimEndAppend(p, q, |p + q|);
    var e := TrimEnd(q, 0, |q|);
    assert (p + q)[..|p| + e] == p + q[..e];
  }

  /** `s.startswith(p)`: `p` is no longer than `s` and agrees with it character by character. */
  predicate StartsWith(s: string, p: string): (b: bool)
    ensures b <==> |p| <= |s| && forall i :: 0 <= i < |p| ==> s[i] == p[i]
  {
    |p| <= |s| && s[..|p|] == p
  }

  /** `pat` occurs in `s` starting at index `i`. */
  predicate OccursAt(s: string, pat: string, i: int) {
    0 <= i && i + |pat| <= |s| && s[i..i + |pat|] == pat
  }

  /** Python's `pat in s`. */
  ghost predicate Contains(s: string, pat: string) {
    exists i :: OccursAt(s, pat, i)
  }

  lemma StartsWithOccurs(s: string, p: string)
    ensures StartsWith(s, p) <==> OccursAt(s, p, 0)
  {
  }

  /** A string that starts with `p` starts with `p`'s first character. */
  lemma StartsWithHead(s: string, p: string)
    requires |p| > 0
    ensures StartsWith(s, p) ==> |s| > 0 && s[0] == p[0]
  {
    if StartsWith(s, p) {
      assert s[..|p|][0] == s[0];
    }
  }

  /** A slice of a slice is a slice of the original. */
  lemma SliceOfSlice(s: string, a: nat, b: nat, c: nat, d: nat)
    requires a <= b <= |s| && c <= d <= b - a
    ensures s[a..b][c..d] == s[a + c..a + d]
  {
    forall k | 0 <= k < d - c
      ensures s[a..b][c..d][k] == s[a + c..a + d][k]
    {
      assert s[a..b][c..d][k] == s[a..b][c + k] == s[a + c + k];
    }
  }

  /** Occurrences in a suffix are occurrences in the whole string, shifted. */
  lemma OccursShift(s: string, pat: string, d: nat, j: int)
    requires d <= |s| && 0 <= j
    ensures OccursAt(s[d..], pat, j) <==> OccursAt(s, pat, d + j)
  {
    if 0 <= j && j + |pat| <= |s| - d {
      assert s[d..][j..j + |pat|] == s[d + j..d + j + |pat|];
    }
  }

  /** An occurrence inside a slice is an occurrence in the whole string. */
  lemma SliceOccurs(s: string, pat: string, a: nat, b: nat, j: int)
    requires a <= b <= |s|
    requires OccursAt(s[a..b], pat, j)
    ensures OccursAt(s, pat, a + j)
  {
    var t := s[a..b];
    forall k | 0 <= k < |pat|
      ensures s[a + j..a + j + |pat|][k] == pat[k]
    {
      assert t[j + k] == s[a + j + k];
      assert t[j..j + |pat|][k] == t[j + k];
    }
  }

  /** A slice of a string that does not contain `pat` does not contain it either. */
  lemma SliceKeepsAbsence(s: string, pat: string, a: nat, b: nat)
    requires a <= b <= |s|
    requires !Contains(s, pat)
    ensures !Contains(s[a..b], pat)
  {
    forall j | OccursAt(s[a..b], pat, j)
      ensures OccursAt(s, pat, a + j)
    {
      SliceOccurs(s, pat, a, b, j);
    }
  }

  /** Stripping cuts out a slice, so it cannot create an occurrence. */
  lemma StripKeepsAbsence(s: string, pat: string)
    requires !Contains(s, pat)
    ensures !Contains(Strip(s), pat)
  {
    var a := SkipSpaces(s, 0);
    SliceKeepsAbsence(s, pat, a, a + |Strip(s)|);
  }

  /**
   * `s.find(pat, from)` with "not found" reported as `|s|`: the least index
   * at or after `from` where `pat` occurs.
   */
  function Find(s: string, pat: string, from: nat): (k: nat)
    requires |pat| > 0 && from <= |s|
    ensures from <= k <= |s|
    ensures k < |s| ==> OccursAt(s, pat, k)
    ensures forall j :: from <= j < k ==> !OccursAt(s, pat, j)
    decreases |s| - from
  {
    if from + |pat| > |s| then |s|
    else if OccursAt(s, pat, from) then from
    else Find(s, pat, from + 1)
  }

  /** `Find` is determined by its contract: the least occurrence, else the end. */
  lemma FindUnique(s: string, pat: string, from: nat, k: nat)
    requires |pat| > 0 && from <= k <= |s|
    requires k < |s| ==> OccursAt(s, pat, k)
    requires forall j :: from <= j < k ==> !OccursAt(s, pat, j)
    ensures Find(s, pat, from) == k
  {
  }

  /** No occurrence before `e` in `s` from `d` means none before `e - d` in `s[d..]`. */
  lemma NoneBeforeShift(s: string, pat: string, d: nat, e: nat)
    requires d <= e <= |s|
    requires forall j :: d <= j < e ==> !OccursAt(s, pat, j)
    ensures forall j :: 0 <= j < e - d ==> !OccursAt(s[d..], pat, j)
  {
    forall j | 0 <= j < e - d
      ensures !OccursAt(s[d..], pat, j)
    {
      OccursShift(s, pat, d, j);
    }
  }

  /** Searching a suffix finds the same occurrence as searching from its start. */
  lemma FindShift(s: string, pat: string, d: nat)
    requires |pat| > 0 && d <= |s|
    ensures Find(s[d..], pat, 0) + d == Find(s, pat, d)
  {
    FirstAfter(s, pat, d, Find(s, pat, d));
  }

  /** The first occurrence at or after `d` is the first occurrence in `s[d..]`, shifted. */
  lemma FirstAfter(s: string, pat: string, d: nat, k: nat)
    requires |pat| > 0 && d <= k <= |s|
    requires k < |s| ==> OccursAt(s, pat, k)
    requires forall j :: d <= j < k ==> !OccursAt(s, pat, j)
    ensures Find(s[d..], pat, 0) == k - d
  {
    if k < |s| {
      OccursShift(s, pat, d, k - d);
    }
    NoneBeforeShift(s, pat, d, k);
    FindUnique(s[d..], pat, 0, k - d);
  }

  /** A piece between separators holds no separator. */
  lemma BeforeFirstHasNoSeparator(s: string, sep: string)
    requires |sep| > 0
    ensures !Contains(s[..Find(s, sep, 0)], sep)
  {
    var k := Find(s, sep, 0);
    forall j | OccursAt(s[..k], sep, j)
      ensures OccursAt(s, sep, j) && j < k
    {
      SliceOccurs(s, sep, 0, k, j);
    }
  }

  /** `sep.join(pieces)`. */
  function Join(pieces: seq<string>, sep: string): string {
    if |pieces| == 0 then ""
    else if |pieces| == 1 then pieces[0]
    else pieces[0] + sep + Join(pieces[1..], sep)
  }

  /**
   * `s.split(sep)` for a non-empty separator: the text before the first
   * occurrence, then the split of what follows it. `Join` undoes it, no piece
   * holds the separator, and a string that starts with the separator has at
   * least two pieces, the first empty.
   */
  function Split(s: string, sep: string): (r: seq<string>)
    requires |sep| > 0
    ensures |r| >= 1
    ensures r[0] == s[..Find(s, sep, 0)]
    ensures forall i :: 0 <= i < |r| ==> !Contains(r[i], sep)
    ensures Join(r, sep) == s
    ensures StartsWith(s, sep) ==> |r| >= 2 && r[0] == ""
    decreases |s|
  {
    var k := Find(s, sep, 0);
    BeforeFirstHasNoSeparator(s, sep);
    if k == |s| then
      assert s[..k] == s;
      [s]
    else
      var rest := Split(s[k + |sep|..], sep);
      assert s == s[..k] + sep + s[k + |sep|..];
      [s[..k]] + rest
  }

  /**
   * The second piece of a split that starts with the separator runs from
   * just after it to the next occurrence, or to the end of the string.
   */
  lemma SplitSecondPiece(s: string, sep: string)
    requires |sep| > 0 && StartsWith(s, sep)
    ensures Split(s, sep)[1] == s[|sep|..Find(s, sep, |sep|)]
  {
    StartsWithOccurs(s, sep);
    assert Find(s, sep, 0) == 0;
    SplitTail(s, sep);
    FindShift(s, sep, |sep|);
    PrefixOfSuffix(s, |sep|, Find(s[|sep|..], sep, 0));
  }

  /** A prefix of a suffix is a slice. */
  lemma PrefixOfSuffix(s: string, d: nat, n: nat)
    requires d + n <= |s|
    ensures s[d..][..n] == s[d..d + n]
  {
    assert forall k | 0 <= k < n :: s[d..][..n][k] == s[d + k];
  }

  /** Past the first piece, a split goes on with the split of what follows the first separator. */
  lemma SplitTail(s: string, sep: string)
    requires |sep| > 0 && Find(s, sep, 0) < |s|
    ensures var k := Find(s, sep, 0);
            |Split(s, sep)| >= 2 && Split(s, sep)[1] == Split(s[k + |sep|..], sep)[0]
  {
  }

  /**
   * An f-string: the fixed text `parts[0]`, the first value, `parts[1]`, …,
   * the last value, the last fixed text.
   */
  function Fill(parts: seq<string>, values: seq<string>): (r: string)
    requires |parts| == |values| + 1
    ensures StartsWith(r, parts[0])
    decreases |values|
  {
    if |values| == 0 then parts[0]
    else parts[0] + values[0] + Fill(parts[1..], values[1..])
  }

  /** The index at which `Fill` places `values[i]`. */
  function Slot(parts: seq<string>, values: seq<string>, i: nat): nat
    requires |parts| == |values| + 1 && i < |values|
    decreases i
  {
    if i == 0 then |parts[0]|
    else |parts[0]| + |values[0]| + Slot(parts[1..], values[1..], i - 1)
  }

  /** Every interpolated value appears verbatim in the filled template. */
  lemma FillEmbeds(parts: seq<string>, values: seq<string>, i: nat)
    requires |parts| == |values| + 1 && i < |values|
    ensures OccursAt(Fill(parts, values), values[i], Slot(parts, values, i))
    ensures Contains(Fill(parts, values), values[i])
  {
    FillSlot(parts, values, i);
  }

  /** `values[i]` sits at `Slot(parts, values, i)`, by induction on `i`. */
  lemma {:induction false} FillSlot(parts: seq<string>, values: seq<string>, i: nat)
    requires |parts| == |values| + 1 && i < |values|
    ensures OccursAt(Fill(parts, values), values[i], Slot(parts, values, i))
    decreases i
  {
    var f := Fill(parts, values);
    var head := parts[0] + values[0];
    var tail := Fill(parts[1..], values[1..]);
    assert f == head + tail;
    if i == 0 {
      OccursFirst(values[0], tail);
      OccursAfter(parts[0], values[0] + tail, values[0], 0);
      assert f == parts[0] + (values[0] + tail);
    } else {
      FillSlot(parts[1..], values[1..], i - 1);
      assert values[1..][i - 1] == values[i];
      var j := Slot(parts[1..], values[1..], i - 1);
      OccursAfter(head, tail, values[i], j);
      assert Slot(parts, values, i) == |head| + j;
    }
  }

  /** `p` occurs at the start of `p + t`. */
  lemma OccursFirst(p: string, t: string)
    ensures OccursAt(p + t, p, 0)
  {
    assert (p + t)[..|p|] == p;
  }

  /** An occurrence in `t` is an occurrence in `h + t`, shifted by `|h|`. */
  lemma OccursAfter(h: string, t: string, pat: string, j: int)
    requires OccursAt(t, pat, j)
    ensures OccursAt(h + t, pat, |h| + j)
  {
    assert (h + t)[|h| + j..|h| + j + |pat|] == t[j..j + |pat|];
  }
}
