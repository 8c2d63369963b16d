/**
 * Tagged blocks inside model output: `<think>...</think>` and `<tool_call>...</tool_call>`.
 * The source finds them with the lazy regular expressions `(?s)<tag>(.*?)</tag>`.
 */
module Tags {
  import opened Text

  /** An opening and a closing tag. `<` starts each and occurs nowhere else in it. */
  datatype Tag = Tag(open: string, close: string) {
    ghost predicate Valid() { TagText(open) && TagText(close) }
  }

  ghost predicate TagText(p: string) {
    p != "" && p[0] == '<' && forall i :: 0 < i < |p| ==> p[i] != '<'
  }

  const THINK := Tag("<think>", "</think>")
  const TOOL_CALL := Tag("<tool_call>", "</tool_call>")

  /** A text cut at its blocks: what precedes each block, the inner texts, and the remainder. */
  datatype Cuts = Rest(text: string) | Block(before: string, inner: string, more: Cuts)

  function Render(c: Cuts, tag: Tag): string {
    match c
    case Rest(text) => text
    case Block(before, inner, more) => before + tag.open + (inner + tag.close + Render(more, tag))
  }

  function Outer(c: Cuts): string {
    match c case Rest(text) => text case Block(before, _, more) => before + Outer(more)
  }

  function Inner(c: Cuts): string {
    match c case Rest(_) => "" case Block(_, inner, more) => inner + Inner(more)
  }

  function Inners(c: Cuts): seq<string> {
    match c case Rest(_) => [] case Block(_, inner, more) => [inner] + Inners(more)
  }

  /** All matches of the expression: leftmost, non-overlapping, each as short as possible. */
  function CutAt(text: string, tag: Tag): (c: Cuts)
    requires tag.open != "" && tag.close != ""
    decreases |text|
  {
    var i := Index(text, tag.open);
    if i == -1 then Rest(text)
    else
      var tail := text[i + |tag.open|..];
      var j := Index(tail, tag.close);
      if j == -1 then Rest(text)
      else Block(text[..i], tail[..j], CutAt(tail[j + |tag.close|..], tag))
  }

  /** Cutting loses nothing: putting the tags back gives the text. */
  lemma {:induction false} RenderOfCut(text: string, tag: Tag)
    requires tag.open != "" && tag.close != ""
    ensures Render(CutAt(text, tag), tag) == text
    decreases |text|
  {
    var i := Index(text, tag.open);
    if i != -1 {
      var tail := text[i + |tag.open|..];
      var j := Index(tail, tag.close);
      if j != -1 {
        SplitAtIndex(text, tag.open);
        SplitAtIndex(tail, tag.close);
        RenderOfCut(tail[j + |tag.close|..], tag);
      }
    }
  }

  lemma FirstAfterFree(before: string, p: string, rest: string)
    requires TagText(p) && !Contains(before, p)
    ensures Index(before + p + rest, p) == |before|
  {
    var s := before + p + rest;
    assert At(s, p, |before|);
    assert s[|before|..|before| + |p|] == p && s[..|before|] == before;
    IndexIsFirst(before, p);
    forall j | 0 <= j < |before| ensures !At(s, p, j) {
      if |before| < j + |p| <= |s| {
        assert s[j..j + |p|][|before| - j] == s[|before|] == p[0];
      } else {
        AtInSlice(s, p, 0, |before|, j);
      }
    }
    IndexIsUnique(s, p, |before|);
  }

  /** Occurrences in a slice are those of the whole text that fit in it. */
  lemma AtInSlice(s: string, p: string, a: nat, b: nat, j: nat)
    requires a <= b <= |s|
    ensures At(s[a..b], p, j) <==> At(s, p, a + j) && a + j + |p| <= b
  {
    if a + j + |p| <= b {
      var t, u := s[a..b][j..j + |p|], s[a + j..a + j + |p|];
      assert forall k :: 0 <= k < |p| ==> t[k] == s[a + j + k] == u[k];
      assert t == u;
    }
  }

  /** Segments that a caller may interleave with tags without being misread. */
  ghost predicate Separable(c: Cuts, tag: Tag) {
    match c
    case Rest(text) => !Contains(text, tag.open)
    case Block(before, inner, more) =>
      !Contains(before, tag.open) && !Contains(inner, tag.close) && Separable(more, tag)
  }

  lemma {:induction false} CutOfRender(c: Cuts, tag: Tag)
    requires tag.Valid() && Separable(c, tag)
    ensures CutAt(Render(c, tag), tag) == c
  {
    match c
    case Rest(text) => IndexIsFirst(text, tag.open);
    case Block(before, inner, more) =>
      var tail := inner + tag.close + Render(more, tag);
      var text := Render(c, tag);
      FirstAfterFree(before, tag.open, tail);
      assert text[|before| + |tag.open|..] == tail;
      FirstAfterFree(inner, tag.close, Render(more, tag));
      assert tail[|inner| + |tag.close|..] == Render(more, tag);
      assert text[..|before|] == before && tail[..|inner|] == inner;
      CutOfRender(more, tag);
  }

  /***** splitThinkTags *****/

  /** Before trimming: the text outside the blocks, up to a stray opening tag. */
  function RawClean(text: string, tag: Tag): string
    requires tag.open != "" && tag.close != ""
  {
    var cleaned := Outer(CutAt(text, tag));
    var stray := Index(cleaned, tag.open);
    if stray == -1 then cleaned else cleaned[..stray]
  }

  /** Before trimming: the inner texts, and what follows a stray opening tag. */
  function RawThought(text: string, tag: Tag): string
    requires tag.open != "" && tag.close != ""
  {
    var cuts := CutAt(text, tag);
    var stray := Index(Outer(cuts), tag.open);
    if stray == -1 then Inner(cuts) else Inner(cuts) + Outer(cuts)[stray + |tag.open|..]
  }

  function CleanText(text: string, tag: Tag): string
    requires tag.open != "" && tag.close != ""
  {
    if Index(text, tag.open) == -1 then text else TrimSpace(RawClean(text, tag))
  }

  function ThoughtText(text: string, tag: Tag): string
    requires tag.open != "" && tag.close != ""
  {
    if Index(text, tag.open) == -1 then "" else TrimSpace(RawThought(text, tag))
  }

  /** The next match of the expression, if there is one. */
  method NextBlock(text: string, tag: Tag) returns (found: bool, before: string, inner: string, after: string)
    requires tag.open != "" && tag.close != ""
    ensures found ==> |after| < |text| && CutAt(text, tag) == Block(before, inner, CutAt(after, tag))
    ensures !found ==> CutAt(text, tag) == Rest(text)
  {
    found, before, inner, after := false, "", "", "";
    var i := Index(text, tag.open);
    if i != -1 {
      var tail := text[i + |tag.open|..];
      var j := Index(tail, tag.close);
      if j != -1 {
        return true, text[..i], tail[..j], tail[j + |tag.close|..];
      }
    }
  }

  /** The replacement loop of the expression: kept text, and text captured by the group. */
  method SeparateBlocks(text: string, tag: Tag) returns (cleaned: string, captured: string)
    requires tag.open != "" && tag.close != ""
    ensures cleaned == Outer(CutAt(text, tag)) && captured == Inner(CutAt(text, tag))
  {
    cleaned, captured := "", "";
    ghost var all := CutAt(text, tag);
    var rest := text;
    ghost var cuts := all;
    var found, before, inner, after := NextBlock(rest, tag);
    while found
      invariant cuts == CutAt(rest, tag)
      invariant if found then |after| < |rest| && cuts == Block(before, inner, CutAt(after, tag)) else cuts == Rest(rest)
      invariant cleaned + Outer(cuts) == Outer(all) && captured + Inner(cuts) == Inner(all)
      decreases |rest|
    {
      OneBlock(cleaned, captured, cuts);
      cleaned, captured := cleaned + before, captured + inner;
      rest, cuts := after, cuts.more;
      found, before, inner, after := NextBlock(rest, tag);
    }
    assert captured + "" == captured;
    cleaned := cleaned + rest;
  }

  lemma OneBlock(cleaned: string, captured: string, c: Cuts)
    requires c.Block?
    ensures cleaned + c.before + Outer(c.more) == cleaned + Outer(c)
    ensures captured + c.inner + Inner(c.more) == captured + Inner(c)
  {
  }

  method SplitRaw(text: string, tag: Tag) returns (cleaned: string, thoughts: string)
    requires tag.open != "" && tag.close != ""
    ensures cleaned == RawClean(text, tag) && thoughts == RawThought(text, tag)
  {
    hide CutAt, Outer, Inner, Index;
    cleaned, thoughts := SeparateBlocks(text, tag);
    cleaned, thoughts := CutStray(cleaned, thoughts, tag.open);
  }

  /** A stray opening tag: the stream stopped inside a thought. */
  method CutStray(outer: string, inner: string, open: string) returns (cleaned: string, thoughts: string)
    ensures var i := Index(outer, open);
      if i == -1 then cleaned == outer && thoughts == inner
      else cleaned == outer[..i] && thoughts == inner + outer[i + |open|..]
  {
    cleaned, thoughts := outer, inner;
    var idx := Index(cleaned, open);
    if idx >= 0 {
      thoughts := thoughts + cleaned[idx + |open|..];
      cleaned := cleaned[..idx];
    }
  }

  /** `splitThinkTags`, called with `THINK`. */
  method SplitTags(text: string, tag: Tag) returns (clean: string, thought: string)
    requires tag.open != "" && tag.close != ""
    ensures clean == CleanText(text, tag) && thought == ThoughtText(text, tag)
  {
    if Index(text, tag.open) == -1 { return text, ""; }
    clean, thought := SplitRaw(text, tag);
    clean, thought := TrimSpace(clean), TrimSpace(thought);
  }

  lemma SliceContains(s: string, p: string, a: nat, b: nat)
    requires a <= b <= |s|
    ensures Contains(s[a..b], p) ==> Contains(s, p)
  {
    if i :| At(s[a..b], p, i) {
      AtInSlice(s, p, a, b, i);
    }
  }

  lemma FreeBeforeFirst(s: string, p: string, i: nat)
    requires p != "" && FirstAt(s, p, i)
    ensures !Contains(s[..i], p)
  {
    forall j: nat ensures !At(s[..i], p, j) { AtInSlice(s, p, 0, i, j); }
  }

  lemma RawCleanIsFree(text: string, tag: Tag)
    requires tag.open != "" && tag.close != ""
    ensures !Contains(RawClean(text, tag), tag.open)
  {
    var cleaned := Outer(CutAt(text, tag));
    IndexIsFirst(cleaned, tag.open);
    var stray := Index(cleaned, tag.open);
    if stray != -1 { FreeBeforeFirst(cleaned, tag.open, stray); }
  }

  /** No opening tag survives, even when removing a block brings the halves of one together. */
  lemma CleanHasNoTag(text: string, tag: Tag)
    requires tag.open != "" && tag.close != ""
    ensures !Contains(CleanText(text, tag), tag.open)
  {
    if Index(text, tag.open) == -1 {
      IndexIsFirst(text, tag.open);
    } else {
      var raw := RawClean(text, tag);
      RawCleanIsFree(text, tag);
      var a, b := TrimSpec(raw);
      SliceContains(raw, tag.open, a, b);
    }
  }

  /** A second pass changes nothing. */
  lemma SplitTwice(text: string, tag: Tag)
    requires tag.open != "" && tag.close != ""
    ensures CleanText(CleanText(text, tag), tag) == CleanText(text, tag)
    ensures ThoughtText(CleanText(text, tag), tag) == ""
  {
    CleanHasNoTag(text, tag);
    IndexIsFirst(CleanText(text, tag), tag.open);
  }

  function BlockCount(c: Cuts): nat {
    match c case Rest(_) => 0 case Block(_, _, more) => 1 + BlockCount(more)
  }

  lemma {:induction false} RenderLength(c: Cuts, tag: Tag)
    ensures |Render(c, tag)| == |Outer(c)| + |Inner(c)| + BlockCount(c) * (|tag.open| + |tag.close|)
  {
    match c
    case Rest(_) =>
    case Block(_, _, more) => RenderLength(more, tag);
  }

  lemma RawLength(text: string, tag: Tag)
    requires tag.open != "" && tag.close != ""
    ensures var cuts := CutAt(text, tag);
            |RawClean(text, tag)| + |RawThought(text, tag)| ==
            |Outer(cuts)| + |Inner(cuts)| - if Index(Outer(cuts), tag.open) == -1 then 0 else |tag.open|
  {
  }

  /** Every character of the input is in the cleaned text, in the thoughts or in a removed tag. */
  lemma SplitConservesLength(text: string, tag: Tag)
    requires tag.open != "" && tag.close != ""
    ensures var cuts := CutAt(text, tag);
            |text| == |RawClean(text, tag)| + |RawThought(text, tag)| +
                      BlockCount(cuts) * (|tag.open| + |tag.close|) +
                      if Index(Outer(cuts), tag.open) == -1 then 0 else |tag.open|
  {
    RenderOfCut(text, tag);
    RenderLength(CutAt(text, tag), tag);
    RawLength(text, tag);
  }

  lemma {:induction false} OuterFreeIsSeparable(c: Cuts, tag: Tag)
    requires !Contains(Outer(c), tag.open)
    requires forall i :: 0 <= i < |Inners(c)| ==> !Contains(Inners(c)[i], tag.close)
    ensures Separable(c, tag)
  {
    match c
    case Rest(_) =>
    case Block(before, inner, more) =>
      assert Inners(c)[0] == inner;
      forall i | 0 <= i < |Inners(more)| ensures !Contains(Inners(more)[i], tag.close) {
        assert Inners(c)[i + 1] == Inners(more)[i];
      }
      assert Outer(c)[0..|before|] == before && Outer(c)[|before|..|Outer(c)|] == Outer(more);
      SliceContains(Outer(c), tag.open, 0, |before|);
      SliceContains(Outer(c), tag.open, |before|, |Outer(c)|);
      OuterFreeIsSeparable(more, tag);
  }

  /**
   * Thoughts interleaved with prose come apart again: both concatenations are recovered up to
   * trimming when the prose, taken together, has no opening tag and no thought has a closing one.
   */
  lemma SplitRecovers(c: Cuts, tag: Tag)
    requires tag.Valid()
    requires !Contains(Outer(c), tag.open)
    requires forall i :: 0 <= i < |Inners(c)| ==> !Contains(Inners(c)[i], tag.close)
    ensures CleanText(Render(c, tag), tag) == if c.Rest? then c.text else TrimSpace(Outer(c))
    ensures ThoughtText(Render(c, tag), tag) == TrimSpace(Inner(c))
  {
    OuterFreeIsSeparable(c, tag);
    CutOfRender(c, tag);
    IndexIsFirst(Outer(c), tag.open);
  }

  /** The same segments with more text at the end. */
  function Extended(c: Cuts, more: string): Cuts {
    match c case Rest(text) => Rest(text + more) case Block(before, inner, rest) => Block(before, inner, Extended(rest, more))
  }

  lemma {:induction false} ExtendedParts(c: Cuts, more: string, tag: Tag)
    ensures Render(Extended(c, more), tag) == Render(c, tag) + more
    ensures Outer(Extended(c, more)) == Outer(c) + more && Inner(Extended(c, more)) == Inner(c)
  {
    match c
    case Rest(_) =>
    case Block(before, inner, rest) =>
      ExtendedParts(rest, more, tag);
      RenderMore(before, tag.open, inner, tag.close, Render(rest, tag), more);
  }

  lemma RenderMore(a: string, b: string, c: string, d: string, e: string, more: string)
    ensures a + b + (c + d + (e + more)) == a + b + (c + d + e) + more
  {
  }

  lemma {:induction false} CutOfStray(c: Cuts, tail: string, tag: Tag)
    requires tag.Valid() && Separable(c, tag) && !Contains(tail, tag.close)
    ensures CutAt(Render(c, tag) + (tag.open + tail), tag) == Extended(c, tag.open + tail)
  {
    var more := tag.open + tail;
    match c
    case Rest(text) =>
      FirstAfterFree(text, tag.open, tail);
      assert text + tag.open + tail == text + more;
      assert (text + more)[|text| + |tag.open|..] == tail;
      IndexIsFirst(tail, tag.close);
    case Block(before, inner, rest) =>
      var end := Render(rest, tag) + more;
      var after := inner + tag.close + end;
      RenderMore(before, tag.open, inner, tag.close, Render(rest, tag), more);
      assert Render(c, tag) + more == before + tag.open + after;
      FirstAfterFree(before, tag.open, after);
      assert (before + tag.open + after)[|before| + |tag.open|..] == after;
      FirstAfterFree(inner, tag.close, end);
      assert after[|inner| + |tag.close|..] == end;
      assert (before + tag.open + after)[..|before|] == before && after[..|inner|] == inner;
      CutOfStray(rest, tail, tag);
  }

  /** A thought that the stream did not finish is a thought, after all the others; the prose ends before it. */
  lemma StrayTailIsThought(c: Cuts, tail: string, tag: Tag)
    requires tag.Valid() && !Contains(tail, tag.close)
    requires !Contains(Outer(c), tag.open)
    requires forall i :: 0 <= i < |Inners(c)| ==> !Contains(Inners(c)[i], tag.close)
    ensures var text := Render(c, tag) + (tag.open + tail);
      CleanText(text, tag) == TrimSpace(Outer(c)) && ThoughtText(text, tag) == TrimSpace(Inner(c) + tail)
  {
    hide CutAt, Render, Outer, Inner, Index, TrimSpace, Contains;
    OuterFreeIsSeparable(c, tag);
    CutOfStray(c, tail, tag);
    ExtendedParts(c, tag.open + tail, tag);
    StrayAt(Outer(c), tag.open, tail);
    HasOpening(Render(c, tag), tag.open, tail);
  }

  lemma StrayAt(outer: string, open: string, tail: string)
    requires TagText(open) && !Contains(outer, open)
    ensures var s := outer + (open + tail);
      Index(s, open) == |outer| && s[..|outer|] == outer && s[|outer| + |open|..] == tail
  {
    FirstAfterFree(outer, open, tail);
    assert outer + open + tail == outer + (open + tail);
  }

  lemma HasOpening(a: string, open: string, b: string)
    ensures Index(a + (open + b), open) != -1
  {
    var s := a + (open + b);
    assert s[|a|..|a| + |open|] == open;
    assert At(s, open, |a|);
    IndexIsFirst(s, open);
  }

  lemma TagsAreValid()
    ensures THINK.Valid() && TOOL_CALL.Valid()
    ensures THINK == Tag("<think>", "</think>") && TOOL_CALL == Tag("<tool_call>", "</tool_call>")
  {
  }
}
