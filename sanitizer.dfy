/**
 * Recovery of a JSON candidate from the language model's free-form reply,
 * as both roadmap endpoints do it: strip, cut out the first fenced block,
 * drop a leading `json` language tag, strip again.
 */
module Sanitizer {
  import opened Text

  /** The code-fence marker the model may wrap its answer in. */
  const Fence: string := "```"

  /** The language tag that may follow the opening fence. */
  const JsonTag: string := "json"

  /** One leading `json` language tag is cut off; anything else is left alone. */
  function DropTag(p: string): (r: string)
    ensures StartsWith(p, JsonTag) ==> p == JsonTag + r
    ensures !StartsWith(p, JsonTag) ==> r == p
  {
    if StartsWith(p, JsonTag) then
      assert p == p[..|JsonTag|] + p[|JsonTag|..];
      p[|JsonTag|..]
    else p
  }

  /**
   * Piece `[1]` of `t.split('```')` for a text that opens with a fence: it
   * always exists, and it is the text from just after the opening fence up
   * to the next fence, or to the end when there is none.
   */
  function FirstBlock(t: string): (r: string)
    requires StartsWith(t, Fence)
    ensures r == t[|Fence|..Find(t, Fence, |Fence|)]
    ensures !Contains(r, Fence)
  {
    SplitSecondPiece(t, Fence);
    Split(t, Fence)[1]
  }

  /**
   * The fenced-block step: a text that opens with a fence becomes its first
   * block, less its tag, and keeps no fence; any other text is left alone.
   */
  function Unfence(t: string): (r: string)
    ensures StartsWith(t, Fence) ==> !Contains(r, Fence)
    ensures !StartsWith(t, Fence) ==> r == t
  {
    if StartsWith(t, Fence) then
      DropTagKeepsAbsence(FirstBlock(t));
      DropTag(FirstBlock(t))
    else t
  }

  /**
   * The whole clean-up. The result never has outer whitespace, and a reply
   * that does not open with a fence comes back merely stripped.
   */
  function Sanitize(raw: string): (r: string)
    ensures Trimmed(r)
    ensures !StartsWith(Strip(raw), Fence) ==> r == Strip(raw)
  {
    StripIdempotent(raw);
    Strip(Unfence(Strip(raw)))
  }

  /**
   * On the fenced path only the first block survives: the text between the
   * opening fence and the next one (or the end), less one leading `json`.
   */
  lemma UnfenceKeepsFirstBlock(t: string)
    requires StartsWith(t, Fence)
    ensures var p := t[|Fence|..Find(t, Fence, |Fence|)];
            Unfence(t) == if StartsWith(p, JsonTag) then p[|JsonTag|..] else p
  {
  }

  lemma DropTagKeepsAbsence(p: string)
    requires !Contains(p, Fence)
    ensures !Contains(DropTag(p), Fence)
  {
    if StartsWith(p, JsonTag) {
      SliceKeepsAbsence(p, Fence, |JsonTag|, |p|);
      assert p[|JsonTag|..|p|] == DropTag(p);
    }
  }

  /** A fenced reply loses every fence marker, the closing one included. */
  lemma SanitizeRemovesFences(raw: string)
    requires StartsWith(Strip(raw), Fence)
    ensures !Contains(Sanitize(raw), Fence)
  {
    StripKeepsAbsence(Unfence(Strip(raw)), Fence);
  }

  /** The fenced-block step cuts out a suffix of the first block. */
  lemma UnfenceSlice(t: string) returns (a: nat)
    requires StartsWith(t, Fence)
    ensures |Fence| <= a <= Find(t, Fence, |Fence|)
    ensures Unfence(t) == t[a..Find(t, Fence, |Fence|)]
  {
    var k := Find(t, Fence, |Fence|);
    var p := FirstBlock(t);
    var d := DropTagSlice(p);
    assert Unfence(t) == p[d..|p|];
    SliceOfSlice(t, |Fence|, k, d, |p|);
    a := |Fence| + d;
  }

  /** Dropping the tag keeps a suffix. */
  lemma DropTagSlice(p: string) returns (d: nat)
    ensures d <= |p| && DropTag(p) == p[d..|p|]
  {
    d := if StartsWith(p, JsonTag) then |JsonTag| else 0;
  }

  /** Stripping a slice of `t` leaves a slice of `t` inside it. */
  lemma StripOfSlice(t: string, c: nat, k: nat, u: string) returns (a: nat, b: nat)
    requires c <= k <= |t| && u == t[c..k]
    ensures c <= a <= b <= k && Strip(u) == t[a..b]
  {
    var d := StripSlice(u);
    SliceOfSlice(t, c, k, d, d + |Strip(u)|);
    a, b := c + d, c + d + |Strip(u)|;
  }

  /** The final strip of a fenced text keeps a slice of its first block. */
  lemma CleanedSlice(t: string) returns (a: nat, b: nat)
    requires StartsWith(t, Fence)
    ensures |Fence| <= a <= b <= Find(t, Fence, |Fence|)
    ensures Strip(Unfence(t)) == t[a..b]
  {
    var c := UnfenceSlice(t);
    a, b := StripOfSlice(t, c, Find(t, Fence, |Fence|), Unfence(t));
  }

  /**
   * Nothing after the closing fence survives: on the fenced path the result
   * is a slice of the first block of the stripped reply.
   */
  lemma SanitizeWithinFirstBlock(raw: string)
    requires StartsWith(Strip(raw), Fence)
    ensures var t := Strip(raw);
            exists a, b :: |Fence| <= a <= b <= Find(t, Fence, |Fence|) && Sanitize(raw) == t[a..b]
  {
    var a, b := CleanedSlice(Strip(raw));
  }

  /** Sanitizing an already sanitized text changes nothing. */
  lemma SanitizeIdempotent(raw: string)
    ensures Sanitize(Sanitize(raw)) == Sanitize(raw)
  {
    var r := Sanitize(raw);
    if StartsWith(Strip(raw), Fence) {
      SanitizeRemovesFences(raw);
      StartsWithOccurs(r, Fence);
    }
    assert !StartsWith(r, Fence);
    StripFixpoint(r);
  }

  /** A fenced block followed by anything is stripped only at the outer end. */
  lemma StripFencedBlock(body: string, rest: string)
    ensures Strip(Fence + body + Fence + rest) == Fence + body + Fence + RStrip(rest)
  {
    var block := Fence + body + Fence;
    assert Fence + body + Fence + rest == block + rest;
    assert block[|block| - 1] == '`';
    assert (block + rest)[0] == '`';
    StripUnpadded(block + rest);
    RStripAppend(block, rest);
  }

  /** A body that does not end in a backtick: no fence can straddle its end. */
  predicate EndsClean(body: string) {
    |body| == 0 || body[|body| - 1] != '`'
  }

  /**
   * A fence that starts inside the body of a fenced block lies wholly in
   * the body, since the body does not end in a backtick.
   */
  lemma FenceInsideBody(body: string, tail: string, j: int)
    requires EndsClean(body)
    requires |Fence| <= j < |Fence| + |body| && OccursAt(Fence + body + Fence + tail, Fence, j)
    ensures OccursAt(body, Fence, j - |Fence|)
  {
    var t := Fence + body + Fence + tail;
    assert t[j..j + |Fence|][0] == t[j] && t[j..j + |Fence|][2] == t[j + 2];
    assert t[|Fence| + |body| - 1] == body[|body| - 1];
    assert j + |Fence| <= |Fence| + |body|;
    forall i | 0 <= i < |Fence|
      ensures body[j - |Fence|..j][i] == Fence[i]
    {
      assert t[j + i] == body[j - |Fence| + i];
    }
  }

  /** A body without a fence, not ending in a backtick, is closed by the fence right after it. */
  lemma ClosingFenceAfterBody(body: string, tail: string)
    requires !Contains(body, Fence) && EndsClean(body)
    ensures var t := Fence + body + Fence + tail;
            Find(t, Fence, |Fence|) == |Fence| + |body| && t[|Fence|..|Fence| + |body|] == body
  {
    var t := Fence + body + Fence + tail;
    var k := |Fence| + |body|;
    assert t[k..k + |Fence|] == Fence;
    forall j | |Fence| <= j < k && OccursAt(t, Fence, j)
      ensures OccursAt(body, Fence, j - |Fence|)
    {
      FenceInsideBody(body, tail, j);
    }
    FindUnique(t, Fence, |Fence|, k);
    assert t[|Fence|..k] == body;
  }

  /**
   * A reply made of a fenced block whose body holds no fence and does not
   * end in a backtick, followed by anything at all, sanitizes to that body,
   * stripped and without its tag.
   */
  lemma SanitizeFencedBlock(body: string, rest: string)
    requires !Contains(body, Fence) && EndsClean(body)
    ensures Sanitize(Fence + body + Fence + rest) == Strip(DropTag(body))
  {
    var raw := Fence + body + Fence + rest;
    var t := Fence + body + Fence + RStrip(rest);
    StripFencedBlock(body, rest);
    assert Strip(raw) == t;
    assert StartsWith(t, Fence) by {
      assert t[..|Fence|] == Fence;
    }
    ClosingFenceAfterBody(body, RStrip(rest));
    UnfenceOfBlock(t, body);
    assert Sanitize(raw) == Strip(Unfence(t));
  }

  /** A fenced text whose first block is `body` unfences to `body` less its tag. */
  lemma UnfenceOfBlock(t: string, body: string)
    requires StartsWith(t, Fence)
    requires t[|Fence|..Find(t, Fence, |Fence|)] == body
    ensures Unfence(t) == DropTag(body)
  {
    UnfenceKeepsFirstBlock(t);
  }

  /** A fence in a text padded with backtick-free strings lies in the text. */
  lemma PaddedOccurs(pre: string, v: string, post: string, j: int)
    requires '`' !in pre && '`' !in post
    requires OccursAt(pre + v + post, Fence, j)
    ensures OccursAt(v, Fence, j - |pre|)
  {
    var w := pre + v + post;
    assert w[j..j + |Fence|][0] == w[j] && w[j..j + |Fence|][2] == w[j + 2];
    assert forall i :: 0 <= i < |pre| ==> w[i] == pre[i];
    assert forall i :: |pre| + |v| <= i < |w| ==> w[i] == post[i - |pre| - |v|];
    assert |pre| <= j && j + |Fence| <= |pre| + |v|;
    forall i | 0 <= i < |Fence|
      ensures v[j - |pre|..j - |pre| + |Fence|][i] == Fence[i]
    {
      assert w[j + i] == v[j - |pre| + i];
    }
  }

  /** Padding with backtick-free text creates no fence. */
  lemma PaddedKeepsAbsence(pre: string, v: string, post: string)
    requires '`' !in pre && '`' !in post && !Contains(v, Fence)
    ensures !Contains(pre + v + post, Fence)
  {
    forall j | OccursAt(pre + v + post, Fence, j)
      ensures OccursAt(v, Fence, j - |pre|)
    {
      PaddedOccurs(pre, v, post, j);
    }
  }

  /** A text without a backtick holds no fence. */
  lemma NoBacktickNoFence(v: string)
    requires '`' !in v
    ensures !Contains(v, Fence)
  {
    assert forall j :: OccursAt(v, Fence, j) ==> v[j..j + |Fence|][0] == v[j] == '`';
  }

  /** Wrapping a JSON text in a newline-padded fenced block. */
  lemma TaggedBlockShape(v: string)
    ensures "```json\n" + v + "\n```" == Fence + (JsonTag + "\n" + v + "\n") + Fence + ""
  {
  }

  lemma UntaggedBlockShape(v: string)
    ensures "```\n" + v + "\n```" == Fence + ("\n" + v + "\n") + Fence + ""
  {
  }

  lemma TightBlockShape(v: string)
    ensures "```json" + v + "```" == Fence + (JsonTag + v) + Fence + ""
  {
  }

  lemma DropTagOfTagged(x: string)
    ensures DropTag(JsonTag + x) == x
  {
    assert (JsonTag + x)[..|JsonTag|] == JsonTag;
    assert (JsonTag + x)[|JsonTag|..] == x;
  }

  lemma DropTagOfPadded(v: string)
    ensures DropTag(JsonTag + "\n" + v + "\n") == "\n" + v + "\n"
  {
    var tagged := JsonTag + "\n" + v + "\n";
    assert tagged[..|JsonTag|] == JsonTag;
    assert tagged[|JsonTag|..] == "\n" + v + "\n";
  }

  lemma StripNewlinePadding(v: string)
    requires Trimmed(v)
    ensures Strip("\n" + v + "\n") == v
  {
    var w := "\n" + v + "\n";
    if v == [] {
      assert SkipSpaces(w, 0) == 2;
    } else {
      assert w[1] == v[0] && w[|w| - 2] == v[|v| - 1];
      assert SkipSpaces(w, 0) == 1;
      assert TrimEnd(w, 1, |w|) == |w| - 1;
      assert w[1..|w| - 1] == v;
    }
  }

  /** A trimmed JSON text without a fence, fenced with a `json` tag, is recovered whole. */
  lemma SanitizeTaggedJson(v: string)
    requires Trimmed(v) && !Contains(v, Fence)
    ensures Sanitize("```json\n" + v + "\n```") == v
  {
    TaggedBlockShape(v);
    PaddedKeepsAbsence(JsonTag + "\n", v, "\n");
    SanitizeFencedBlock(JsonTag + "\n" + v + "\n", "");
    DropTagOfPadded(v);
    StripNewlinePadding(v);
  }

  /** The same text fenced without a tag is recovered whole as well. */
  lemma SanitizeUntaggedJson(v: string)
    requires Trimmed(v) && !Contains(v, Fence)
    ensures Sanitize("```\n" + v + "\n```") == v
  {
    UntaggedBlockShape(v);
    PaddedKeepsAbsence("\n", v, "\n");
    SanitizeFencedBlock("\n" + v + "\n", "");
    StartsWithHead("\n" + v + "\n", JsonTag);
    StripNewlinePadding(v);
  }

  /**
   * Exactly the four tag characters go, even when the body starts with
   * `json` again. Without the newline, a body ending in a backtick would
   * merge with the closing fence, hence the last requirement.
   */
  lemma SanitizeTagDroppedOnce(v: string)
    requires Trimmed(v) && !Contains(v, Fence) && EndsClean(v)
    ensures Sanitize("```json" + v + "```") == v
  {
    TightBlockShape(v);
    PaddedKeepsAbsence(JsonTag, v, "");
    assert JsonTag + v + "" == JsonTag + v;
    SanitizeFencedBlock(JsonTag + v, "");
    DropTagOfTagged(v);
    StripFixpoint(v);
  }

  /** Bare text without outer whitespace or an opening fence passes through unchanged. */
  lemma SanitizeBare(v: string)
    requires Trimmed(v) && !StartsWith(v, Fence)
    ensures Sanitize(v) == v
  {
    StripFixpoint(v);
  }

  lemma SanitizeTaggedExample()
    ensures Sanitize("```json\n{\"a\":1}\n```") == "{\"a\":1}"
  {
    assert "```json\n{\"a\":1}\n```" == "```json\n" + "{\"a\":1}" + "\n```";
    NoBacktickNoFence("{\"a\":1}");
    SanitizeTaggedJson("{\"a\":1}");
  }

  lemma SanitizeUntaggedExample()
    ensures Sanitize("```\n{\"a\":1}\n```") == "{\"a\":1}"
  {
    assert "```\n{\"a\":1}\n```" == "```\n" + "{\"a\":1}" + "\n```";
    NoBacktickNoFence("{\"a\":1}");
    SanitizeUntaggedJson("{\"a\":1}");
  }

  lemma SanitizeBareExample()
    ensures Sanitize("{\"a\":1}") == "{\"a\":1}"
  {
    StartsWithHead("{\"a\":1}", Fence);
    SanitizeBare("{\"a\":1}");
  }

  /** `json` is removed once, and only right after an opening fence. */
  lemma SanitizeTagOnceExample()
    ensures Sanitize("```jsonjson{}```") == "json{}"
    ensures Sanitize("json{}") == "json{}"
  {
    assert "```jsonjson{}```" == "```json" + "json{}" + "```";
    NoBacktickNoFence("json{}");
    SanitizeTagDroppedOnce("json{}");
    StartsWithHead("json{}", Fence);
    SanitizeBare("json{}");
  }
}
