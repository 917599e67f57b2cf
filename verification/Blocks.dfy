/** Overlapping blocks of a long text and the summary made from them
    (src/agents/summarizer.py). */
module Blocks {
  import opened Basics

  function Max(a: int, b: int): int {
    if a < b then b else a
  }

  function Min(a: int, b: int): int {
    if a < b then a else b
  }

  /** `text[lo:hi]` for a bound lo that is not negative; a negative hi counts
      from the end. */
  function Slice(text: string, lo: nat, hi: int): string {
    var end := if hi < 0 then Max(0, hi + |text|) else Min(hi, |text|);
    if lo < end then text[lo..end] else ""
  }

  function Step(block: int, overlap: int): (step: nat)
    ensures step >= 1
  {
    Max(1, block - overlap)
  }

  /** `_split`. */
  function Split(text: string, block: int, overlap: int): seq<string> {
    SplitFrom(text, block, Step(block, overlap), 0)
  }

  function SplitFrom(text: string, block: int, step: nat, start: nat): seq<string>
    requires step >= 1
    decreases |text| - start
  {
    if start >= |text| then []
    else [Slice(text, start, start + block)] + SplitFrom(text, block, step, start + step)
  }

  /** The part of a block that the next one does not repeat. */
  function Head(b: string, step: nat): string {
    b[..Min(step, |b|)]
  }

  function Heads(blocks: seq<string>, step: nat): string {
    if blocks == [] then "" else Head(blocks[0], step) + Heads(blocks[1..], step)
  }

  lemma HeadOfSlice(text: string, block: int, step: nat, start: nat)
    requires 1 <= step <= block && start < |text|
    ensures Head(Slice(text, start, start + block), step) == text[start..Min(start + step, |text|)]
  {
    var end := Min(start + block, |text|);
    assert Slice(text, start, start + block) == text[start..end];
    SliceOfSlice(text, start, end, start, Min(start + step, |text|));
  }

  lemma HeadsOfSplit(text: string, block: int, step: nat, start: nat)
    requires step >= 1 && start < |text|
    ensures Heads(SplitFrom(text, block, step, start), step) ==
      Head(Slice(text, start, start + block), step) + Heads(SplitFrom(text, block, step, start + step), step)
  {
    hide Slice, Head;
    var b, rest := Slice(text, start, start + block), SplitFrom(text, block, step, start + step);
    assert SplitFrom(text, block, step, start) == [b] + rest;
    assert ([b] + rest)[0] == b && ([b] + rest)[1..] == rest;
  }

  lemma Glue(text: string, start: nat, step: nat)
    requires start < |text|
    ensures text[start..Min(start + step, |text|)] + (if start + step < |text| then text[start + step..] else "") == text[start..]
  {
    if start + step < |text| {
      assert text[start..] == text[start..start + step] + text[start + step..];
    } else {
      assert text[start..|text|] == text[start..];
    }
  }

  lemma {:induction false} HeadsRestore(text: string, block: int, step: nat, start: nat)
    requires 1 <= step <= block && start <= |text| + step
    ensures Heads(SplitFrom(text, block, step, start), step) == if start < |text| then text[start..] else ""
    decreases |text| + step - start
  {
    NothingToSplit(text, block, step, start);
    hide *;
    if start < |text| {
      HeadsRestore(text, block, step, start + step);
      HeadOfSlice(text, block, step, start);
      HeadsOfSplit(text, block, step, start);
      Glue(text, start, step);
    }
  }

  lemma NothingToSplit(text: string, block: int, step: nat, start: nat)
    requires step >= 1
    ensures start >= |text| ==> Heads(SplitFrom(text, block, step, start), step) == ""
  {
  }

  lemma {:induction false} HeadsAreShort(text: string, block: int, step: nat, start: nat)
    requires 1 <= block < step && start <= |text| + step
    ensures start < |text| ==> |Heads(SplitFrom(text, block, step, start), step)| <= |text| - start
    ensures start >= |text| ==> Heads(SplitFrom(text, block, step, start), step) == ""
    ensures start + block < |text| ==> |Heads(SplitFrom(text, block, step, start), step)| < |text| - start
    decreases |text| + step - start
  {
    if start < |text| {
      HeadsAreShort(text, block, step, start + step);
      assert SplitFrom(text, block, step, start)[1..] == SplitFrom(text, block, step, start + step);
    }
  }

  /** Nothing is lost exactly when blocks do not leave gaps or there is only one:
      the blocks, each cut where the next one starts, are the text. */
  lemma SplitIsLossless(text: string, block: int, overlap: int)
    requires block >= 1
    ensures Heads(Split(text, block, overlap), Step(block, overlap)) == text <==> overlap >= 0 || |text| <= block
  {
    var step := Step(block, overlap);
    if overlap >= 0 {
      HeadsRestore(text, block, step, 0);
      assert text[0..] == text;
    } else if |text| > block {
      HeadsAreShort(text, block, step, 0);
    } else {
      OneBlock(text, block, step);
    }
  }

  lemma OneBlock(text: string, block: int, step: nat)
    requires 1 <= block < step && |text| <= block
    ensures Heads(SplitFrom(text, block, step, 0), step) == text
  {
    if text != "" {
      assert SplitFrom(text, block, step, step) == [];
      assert SplitFrom(text, block, step, 0) == [Slice(text, 0, block)];
      assert Heads([], step) == "" && [Slice(text, 0, block)][1..] == [];
      assert Slice(text, 0, block) == text && Head(text, step) == text;
    }
  }

  lemma {:induction false} BlockCount(text: string, block: int, step: nat, start: nat)
    requires step >= 1 && start <= |text| + step
    ensures var n := |SplitFrom(text, block, step, start)|;
      if start >= |text| then n == 0 else (n - 1) * step < |text| - start <= n * step
    decreases |text| + step - start
  {
    if start < |text| {
      BlockCount(text, block, step, start + step);
      var n := |SplitFrom(text, block, step, start + step)|;
      assert (n + 1) * step == n * step + step;
      assert n * step == (n - 1) * step + step;
    }
  }

  /** As many blocks as steps are needed to cover the text. */
  lemma SplitCount(text: string, block: int, overlap: int)
    ensures var n, step := |Split(text, block, overlap)|, Step(block, overlap);
      if text == "" then n == 0 else (n - 1) * step < |text| <= n * step
  {
    BlockCount(text, block, Step(block, overlap), 0);
  }

  lemma Multiples(i: nat, step: nat)
    ensures i > 0 ==> i * step == (i - 1) * step + step && i * step >= step
    ensures i == 0 ==> i * step == 0
  {
    if i > 0 {
      assert i * step == (i - 1) * step + step;
      assert (i - 1) * step >= 0;
    }
  }

  lemma {:induction false} BlockAt(text: string, block: int, step: nat, start: nat, i: nat, at: nat)
    requires step >= 1 && at == start + i * step && at < |text|
    ensures i < |SplitFrom(text, block, step, start)|
    ensures SplitFrom(text, block, step, start)[i] == Slice(text, at, at + block)
    decreases i
  {
    Multiples(i, step);
    hide Slice;
    if i > 0 {
      BlockAt(text, block, step, start + step, i - 1, at);
    }
  }

  /** The window of the text at p of length w lies in the i-th block. */
  predicate Within(text: string, block: int, overlap: int, p: nat, w: nat, i: nat) {
    var at := i * Step(block, overlap);
    && i < |Split(text, block, overlap)| && at <= p && p + w <= at + |Split(text, block, overlap)[i]|
    && p + w <= |text| && Split(text, block, overlap)[i][p - at..p + w - at] == text[p..p + w]
  }

  /** No short passage is torn apart: a window of at most one character more
      than the overlap lies whole in one block. */
  lemma ShortWindowsStayWhole(text: string, block: int, overlap: int, p: nat, w: nat) returns (i: nat)
    requires block >= 1 && overlap >= 0 && p + w <= |text| && p < |text|
    requires w <= Min(overlap, block - 1) + 1
    ensures Within(text, block, overlap, p, w, i)
  {
    var step := Step(block, overlap);
    i := p / step;
    DivisionBounds(p, step);
    var at := i * step;
    BlockAt(text, block, step, 0, i, at);
    var end := Min(at + block, |text|);
    assert Slice(text, at, at + block) == text[at..end];
    SliceOfSlice(text, at, end, p, p + w);
  }

  lemma SliceOfSlice(text: string, lo: nat, hi: nat, p: nat, q: nat)
    requires lo <= p <= q <= hi <= |text|
    ensures text[lo..hi][p - lo..q - lo] == text[p..q]
  {
    var inner, outer := text[lo..hi], text[p..q];
    var part := inner[p - lo..q - lo];
    assert |part| == |outer|;
    forall k | 0 <= k < |part| ensures part[k] == outer[k] {
      assert part[k] == inner[p - lo + k] == text[p + k] == outer[k];
    }
  }

  lemma DivisionBounds(p: nat, step: nat)
    requires step >= 1
    ensures (p / step) * step <= p < (p / step) * step + step
  {
    assert p == (p / step) * step + p % step;
  }

  /** The bound is exact: one character more, and the window that starts right
      before the second block lies in no block. */
  lemma LongerWindowsAreTorn(text: string, block: int, overlap: int, i: nat)
    requires block >= 1 && overlap >= 0 && |text| > block
    ensures !Within(text, block, overlap, Step(block, overlap) - 1, Min(overlap, block - 1) + 2, i)
  {
    var step := Step(block, overlap);
    Multiples(i, step);
    if i == 0 {
      BlockAt(text, block, step, 0, 0, 0);
    }
  }

  // ----- The summary -----

  /** The usable answers among those to the first blocks, in order. */
  function Usable<R>(reply: (nat, string) -> Option<R>, blocks: seq<string>): seq<R> {
    if blocks == [] then []
    else
      var n := |blocks| - 1;
      var before := Usable(reply, blocks[..n]);
      match reply(n, blocks[n])
      case Some(r) => before + [r]
      case None => before
  }

  lemma {:induction false} UsableMeans<R>(reply: (nat, string) -> Option<R>, blocks: seq<string>)
    ensures Usable(reply, blocks) == [] <==> forall i :: 0 <= i < |blocks| ==> reply(i, blocks[i]).None?
    ensures forall r :: r in Usable(reply, blocks) ==> exists i :: 0 <= i < |blocks| && reply(i, blocks[i]) == Some(r)
  {
    if blocks != [] {
      var n := |blocks| - 1;
      UsableMeans(reply, blocks[..n]);
      assert forall i :: 0 <= i < n ==> blocks[..n][i] == blocks[i];
    }
  }

  /** The positions of the blocks that were not declined, ascending and complete. */
  ghost predicate Answered<R>(reply: (nat, string) -> Option<R>, blocks: seq<string>, positions: seq<nat>) {
    && (forall a, b :: 0 <= a < b < |positions| ==> positions[a] < positions[b])
    && (forall k :: 0 <= k < |positions| ==> positions[k] < |blocks|)
    && (forall i :: i in positions <==> 0 <= i < |blocks| && reply(i, blocks[i]).Some?)
  }

  /** The answers to the blocks at the given positions. */
  ghost predicate AnswersAt<R>(reply: (nat, string) -> Option<R>, blocks: seq<string>, positions: seq<nat>, answers: seq<R>)
    requires Answered(reply, blocks, positions)
  {
    |positions| == |answers| &&
    forall k :: 0 <= k < |positions| ==> reply(positions[k], blocks[positions[k]]) == Some(answers[k])
  }

  /** The usable answers are those to the blocks that were not declined, in order. */
  lemma {:induction false} UsableInOrder<R>(reply: (nat, string) -> Option<R>, blocks: seq<string>) returns (positions: seq<nat>)
    ensures Answered(reply, blocks, positions) && AnswersAt(reply, blocks, positions, Usable(reply, blocks))
  {
    positions := [];
    if blocks != [] {
      var n := |blocks| - 1;
      var before := UsableInOrder(reply, blocks[..n]);
      AnsweredNext(reply, blocks, before);
      positions := if reply(n, blocks[n]).Some? then before + [n] else before;
      AnswersNext(reply, blocks, before, positions);
    }
  }

  lemma AnswersNext<R>(reply: (nat, string) -> Option<R>, blocks: seq<string>, before: seq<nat>, positions: seq<nat>)
    requires blocks != [] && Answered(reply, blocks[..|blocks| - 1], before)
    requires AnswersAt(reply, blocks[..|blocks| - 1], before, Usable(reply, blocks[..|blocks| - 1]))
    requires var n := |blocks| - 1; positions == if reply(n, blocks[n]).Some? then before + [n] else before
    requires Answered(reply, blocks, positions)
    ensures AnswersAt(reply, blocks, positions, Usable(reply, blocks))
  {
    var n, answers := |blocks| - 1, Usable(reply, blocks);
    forall k | 0 <= k < |before| ensures positions[k] < |blocks| && reply(positions[k], blocks[positions[k]]) == Some(answers[k]) {
      assert positions[k] == before[k] && before[k] < n;
      assert blocks[..n][before[k]] == blocks[before[k]];
    }
  }

  lemma AnsweredNext<R>(reply: (nat, string) -> Option<R>, blocks: seq<string>, before: seq<nat>)
    requires blocks != [] && Answered(reply, blocks[..|blocks| - 1], before)
    ensures var n := |blocks| - 1;
      Answered(reply, blocks, if reply(n, blocks[n]).Some? then before + [n] else before)
  {
    var n := |blocks| - 1;
    assert forall i :: i in before + [n] <==> i in before || i == n;
  }

  /** `_summarize`. The language model is an oracle whose answers may depend on
      how often it was asked; None is a refusal or an answer that does not parse. */
  method Summarize<R>(text: string, block: int, overlap: int, reply: (nat, string) -> Option<R>, prompt: seq<R> -> string)
    returns (summary: Option<R>)
    ensures |text| <= block ==> summary == reply(0, text)
    ensures |text| > block ==>
      var blocks := Split(text, block, overlap);
      var usable := Usable(reply, blocks);
      (summary.None? <==> forall i :: 0 <= i < |blocks| ==> reply(i, blocks[i]).None?)
      && (|usable| == 1 ==> summary == Some(usable[0]))
      && (|usable| > 1 ==> summary == var reduced := reply(|blocks|, prompt(usable));
                                      if reduced.Some? then reduced else Some(usable[0]))
  {
    if |text| <= block {
      return reply(0, text);
    }
    var blocks := Split(text, block, overlap);
    var partials: seq<R> := [];
    for i := 0 to |blocks|
      invariant partials == Usable(reply, blocks[..i])
    {
      assert blocks[..i + 1][..i] == blocks[..i];
      var partial := reply(i, blocks[i]);
      if partial.Some? {
        partials := partials + [partial.value];
      }
    }
    assert blocks[..|blocks|] == blocks;
    UsableMeans(reply, blocks);
    if partials == [] {
      return None;
    }
    if |partials| == 1 {
      return Some(partials[0]);
    }
    var reduced := reply(|blocks|, prompt(partials));
    summary := if reduced.Some? then reduced else Some(partials[0]);
  }
}
