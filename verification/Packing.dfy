/** Grouping of transcription segments into chunks (`segments_to_chunks` in
    src/adapters/whisper_transcriber.py). */
module Packing {
  import opened Basics
  import opened Selections
  import opened Texts

  /** A transcription segment; attributes that are missing are None. */
  datatype Segment = Segment(text: Option<string>, start: Option<real>, end: Option<real>)

  /** A segment that says something: its text is stripped and not empty. */
  datatype Utterance = Utterance(text: string, start: Option<real>, end: Option<real>)

  datatype Chunk = Chunk(id: string, content: string, index: nat, start: Option<real>, end: real)

  function TextOf(segment: Segment): string {
    Strip(if segment.text.Some? then segment.text.value else "")
  }

  /** The segments that are not blank, in order. */
  function Spoken(segments: seq<Segment>): seq<Utterance> {
    if segments == [] then []
    else
      var n := |segments| - 1;
      var last := segments[n];
      Spoken(segments[..n]) + (if TextOf(last) == "" then [] else [Utterance(TextOf(last), last.start, last.end)])
  }

  /** An utterance per segment, blank or not. */
  function Uttered(segments: seq<Segment>): seq<Utterance> {
    seq(|segments|, i requires 0 <= i < |segments| => Utterance(TextOf(segments[i]), segments[i].start, segments[i].end))
  }

  /** The segment has a character that is no white space. */
  ghost predicate SaysSomething(segment: Segment) {
    segment.text.Some? && exists c :: c in segment.text.value && !IsSpace(c)
  }

  ghost function NotBlankAt(segments: seq<Segment>): set<int> {
    set i | 0 <= i < |segments| && SaysSomething(segments[i])
  }

  lemma BlankIff(segment: Segment)
    ensures TextOf(segment) == "" <==> !SaysSomething(segment)
  {
  }

  lemma NotBlankNext(segments: seq<Segment>)
    requires segments != []
    ensures var n := |segments| - 1;
      NotBlankAt(segments) == NotBlankAt(segments[..n]) + (if SaysSomething(segments[n]) then {n} else {})
  {
    hide SaysSomething;
    var n := |segments| - 1;
    assert forall i :: 0 <= i < n ==> segments[..n][i] == segments[i];
  }

  lemma UtteredNext(segments: seq<Segment>)
    requires segments != []
    ensures var n := |segments| - 1;
      Uttered(segments) == Uttered(segments[..n]) + [Utterance(TextOf(segments[n]), segments[n].start, segments[n].end)]
  {
    hide TextOf;
  }

  /** What is spoken are the segments with a character that is no white space, in order. */
  lemma {:induction false} SpokenInOrder(segments: seq<Segment>)
    ensures Selects(Spoken(segments), Uttered(segments), NotBlankAt(segments))
  {
    if segments == [] {
      NothingSelected<Utterance>(NotBlankAt(segments));
    } else {
      var n := |segments| - 1;
      var before, last := segments[..n], segments[n];
      SpokenInOrder(before);
      BlankIff(last);
      NotBlankNext(segments);
      UtteredNext(segments);
      assert |Uttered(before)| == n && n !in NotBlankAt(before);
      hide TextOf, SaysSomething, Selects, NotBlankAt, Uttered;
      SelectsNext(Spoken(before), Uttered(before), NotBlankAt(before), Utterance(TextOf(last), last.start, last.end), NotBlankAt(segments));
    }
  }

  function TextsOf(group: seq<Utterance>): seq<string> {
    seq(|group|, i requires 0 <= i < |group| => group[i].text)
  }

  /** `" ".join`. */
  function Join(texts: seq<string>): string {
    if texts == [] then ""
    else if |texts| == 1 then texts[0]
    else Join(texts[..|texts| - 1]) + " " + texts[|texts| - 1]
  }

  /** One more than the length of the joined texts, if there are any. */
  function Weight(texts: seq<string>): nat {
    if texts == [] then 0 else Weight(texts[..|texts| - 1]) + |texts[|texts| - 1]| + 1
  }

  function Load(group: seq<Utterance>): nat {
    Weight(TextsOf(group))
  }

  function Flatten<T>(groups: seq<seq<T>>): seq<T> {
    if groups == [] then [] else groups[0] + Flatten(groups[1..])
  }

  function FirstStart(group: seq<Utterance>): Option<real> {
    if group == [] then None
    else if FirstStart(group[..|group| - 1]).Some? then FirstStart(group[..|group| - 1])
    else group[|group| - 1].start
  }

  function LastEnd(spoken: seq<Utterance>): real {
    if spoken == [] then 0.0
    else
      var last := spoken[|spoken| - 1];
      if last.end.Some? then last.end.value else LastEnd(spoken[..|spoken| - 1])
  }

  /** The start of a group is that of its first segment with one. */
  lemma {:induction false} StartOf(group: seq<Utterance>)
    ensures FirstStart(group).None? <==> forall u :: u in group ==> u.start.None?
    ensures forall i :: 0 <= i < |group| && group[i].start.Some? && (forall j :: 0 <= j < i ==> group[j].start.None?) ==>
      FirstStart(group) == group[i].start
  {
    if group != [] {
      var n := |group| - 1;
      assert group == group[..n] + [group[n]];
      StartOf(group[..n]);
    }
  }

  /** The end of a list of segments is that of its last segment with one, or zero. */
  lemma {:induction false} EndOf(group: seq<Utterance>)
    ensures (forall u :: u in group ==> u.end.None?) ==> LastEnd(group) == 0.0
    ensures forall i :: 0 <= i < |group| && group[i].end.Some? && (forall j :: i < j < |group| ==> group[j].end.None?) ==>
      LastEnd(group) == group[i].end.value
  {
    if group != [] {
      var n := |group| - 1;
      assert group == group[..n] + [group[n]];
      EndOf(group[..n]);
    }
  }

  predicate WellSpoken(text: string) {
    text != "" && !IsSpace(text[0]) && !IsSpace(text[|text| - 1])
  }

  // ----- What a grouping must satisfy -----

  predicate Fits(target: int, group: seq<Utterance>) {
    |group| == 1 || Load(group) - 1 <= target
  }

  /** Contiguous non-empty groups, none too long unless it is a single segment. */
  predicate Partitions(target: int, groups: seq<seq<Utterance>>, spoken: seq<Utterance>) {
    && Flatten(groups) == spoken
    && forall i :: 0 <= i < |groups| ==> groups[i] != [] && Fits(target, groups[i])
  }

  /** No group could have taken the first segment of the next one. */
  predicate Greedy(target: int, groups: seq<seq<Utterance>>) {
    forall i {:trigger groups[i]} :: 0 <= i < |groups| - 1 ==>
      groups[i + 1] != [] && Load(groups[i]) + |groups[i + 1][0].text| > target
  }

  /** The chunk made of the k-th group. */
  predicate Describes(chunk: Chunk, groups: seq<seq<Utterance>>, k: nat)
    requires k < |groups|
  {
    && chunk.index == k && chunk.id == "chunk-" + Decimal(k)
    && chunk.content == Join(TextsOf(groups[k]))
    && chunk.start == FirstStart(groups[k])
    && chunk.end == LastEnd(Flatten(groups[..k + 1]))
  }

  // ----- Lemmas about joined texts -----

  lemma {:induction false} SpokenWell(segments: seq<Segment>)
    ensures forall u :: u in Spoken(segments) ==> WellSpoken(u.text)
  {
    if segments != [] {
      SpokenWell(segments[..|segments| - 1]);
    }
  }

  lemma {:induction false} JoinEnds(texts: seq<string>)
    requires texts != [] && forall t :: t in texts ==> WellSpoken(t)
    ensures |Join(texts)| == Weight(texts) - 1 && WellSpoken(Join(texts))
  {
    var n := |texts| - 1;
    assert WellSpoken(texts[n]);
    if n > 0 {
      assert forall t :: t in texts[..n] ==> t in texts;
      JoinEnds(texts[..n]);
    } else {
      assert texts[..0] == [];
    }
  }

  lemma {:induction false} FlattenAppend<T>(groups: seq<seq<T>>, group: seq<T>)
    ensures Flatten(groups + [group]) == Flatten(groups) + group
  {
    if groups == [] {
      assert [group] == [] + [group] && [group][1..] == [];
    } else {
      FlattenAppend(groups[1..], group);
      assert (groups + [group])[1..] == groups[1..] + [group];
    }
  }

  lemma Appended(group: seq<Utterance>, u: Utterance)
    ensures TextsOf(group + [u]) == TextsOf(group) + [u.text]
    ensures Load(group + [u]) == Load(group) + |u.text| + 1
    ensures FirstStart(group + [u]) == if FirstStart(group).Some? then FirstStart(group) else u.start
    ensures LastEnd(group + [u]) == if u.end.Some? then u.end.value else LastEnd(group)
  {
    assert (group + [u])[..|group|] == group;
    var texts := TextsOf(group);
    assert TextsOf(group + [u]) == texts + [u.text];
    assert (texts + [u.text])[..|texts|] == texts;
  }

  // ----- The packing loop -----

  /** The chunks made so far are those of the groups. */
  predicate Made(chunks: seq<Chunk>, groups: seq<seq<Utterance>>) {
    |chunks| == |groups| && forall k :: 0 <= k < |chunks| ==> Describes(chunks[k], groups, k)
  }

  /** `flush`. */
  method Flush(chunks: seq<Chunk>, buffer: seq<string>, startTime: Option<real>, endTime: real,
               ghost groups: seq<seq<Utterance>>, ghost group: seq<Utterance>)
    returns (after: seq<Chunk>)
    requires Made(chunks, groups) && forall u :: u in group ==> WellSpoken(u.text)
    requires buffer == TextsOf(group) && startTime == FirstStart(group) && endTime == LastEnd(Flatten(groups) + group)
    ensures Made(after, if group == [] then groups else groups + [group])
  {
    var text := Strip(Join(buffer));
    after := chunks;
    if text != "" {
      assert group != [];
      JoinEnds(buffer);
      after := chunks + [Chunk("chunk-" + Decimal(|chunks|), text, |chunks|, startTime, endTime)];
      FlattenAppend(groups, group);
      assert (groups + [group])[..|groups| + 1] == groups + [group];
      MadeOneMore(chunks, groups, group, after[|chunks|]);
    } else if group != [] {
      JoinEnds(buffer);
      assert false;
    }
  }

  lemma MadeOneMore(chunks: seq<Chunk>, groups: seq<seq<Utterance>>, group: seq<Utterance>, chunk: Chunk)
    requires Made(chunks, groups) && Describes(chunk, groups + [group], |groups|)
    ensures Made(chunks + [chunk], groups + [group])
  {
    var more: seq<seq<Utterance>> := groups + [group];
    forall k | 0 <= k < |groups| ensures Describes(chunks[k], more, k) {
      assert Describes(chunks[k], groups, k) && more[..k + 1] == groups[..k + 1];
    }
  }

  /** Complete groups and the one being filled. */
  predicate Filling(target: int, groups: seq<seq<Utterance>>, group: seq<Utterance>, spoken: seq<Utterance>) {
    && Flatten(groups) + group == spoken && (forall u :: u in spoken ==> WellSpoken(u.text))
    && (forall i :: 0 <= i < |groups| ==> groups[i] != [] && Fits(target, groups[i]))
    && (group != [] ==> Fits(target, group) && Greedy(target, groups + [group]))
    && (group == [] ==> groups == [])
  }

  lemma FillsUp(target: int, groups: seq<seq<Utterance>>, group: seq<Utterance>, spoken: seq<Utterance>, u: Utterance)
    requires Filling(target, groups, group, spoken) && WellSpoken(u.text)
    requires group == [] || Load(group) + |u.text| <= target
    ensures Filling(target, groups, group + [u], spoken + [u])
  {
    Appended(group, u);
    hide Load, WellSpoken;
    assert Flatten(groups) + (group + [u]) == spoken + [u];
    var more: seq<seq<Utterance>> := groups + [group + [u]];
    forall i {:trigger more[i]} | 0 <= i < |groups|
      ensures more[i + 1] != [] && Load(more[i]) + |more[i + 1][0].text| > target
    {
      assert (groups + [group])[i] == more[i];
    }
  }

  lemma StartsNew(target: int, groups: seq<seq<Utterance>>, group: seq<Utterance>, spoken: seq<Utterance>, u: Utterance)
    requires Filling(target, groups, group, spoken) && WellSpoken(u.text)
    requires group != [] && Load(group) + |u.text| > target
    ensures Filling(target, groups + [group], [u], spoken + [u])
    ensures Flatten(groups + [group]) == spoken
  {
    FlattenAppend(groups, group);
    hide Load, WellSpoken;
    var more: seq<seq<Utterance>> := groups + [group] + [[u]];
    forall i {:trigger more[i]} | 0 <= i <= |groups|
      ensures more[i + 1] != [] && Load(more[i]) + |more[i + 1][0].text| > target
    {
      assert i < |groups| ==> more[i] == (groups + [group])[i] && more[i + 1] == (groups + [group])[i + 1];
    }
  }

  lemma SpokenNext(segments: seq<Segment>, i: nat)
    requires i < |segments|
    ensures Spoken(segments[..i + 1]) == Spoken(segments[..i]) +
      (if TextOf(segments[i]) == "" then [] else [Utterance(TextOf(segments[i]), segments[i].start, segments[i].end)])
    ensures TextOf(segments[i]) != "" ==> WellSpoken(TextOf(segments[i]))
  {
    assert segments[..i + 1][..i] == segments[..i];
  }

  /** The chunks made so far, and what the loop keeps about the buffer. */
  ghost predicate Buffering(target: int, chunks: seq<Chunk>, groups: seq<seq<Utterance>>, group: seq<Utterance>,
                            spoken: seq<Utterance>, buffer: seq<string>, bufferLen: nat,
                            startTime: Option<real>, endTime: real) {
    && Made(chunks, groups) && Filling(target, groups, group, spoken)
    && buffer == TextsOf(group) && bufferLen == Load(group)
    && startTime == FirstStart(group) && endTime == LastEnd(spoken)
  }

  /** `segments_to_chunks`: the chunks are those of a greedy partition of the
      non-blank segments. */
  method SegmentsToChunks(segments: seq<Segment>, target: int) returns (chunks: seq<Chunk>, ghost groups: seq<seq<Utterance>>)
    ensures Made(chunks, groups)
    ensures Partitions(target, groups, Spoken(segments)) && Greedy(target, groups)
  {
    hide Made, Filling, Load, FirstStart, LastEnd, TextOf, WellSpoken, Spoken;
    NothingSpoken(target);
    chunks, groups := [], [];
    var buffer: seq<string>, bufferLen: nat, startTime: Option<real>, endTime: real := [], 0, None, 0.0;
    ghost var group: seq<Utterance> := [];
    for i := 0 to |segments|
      invariant Buffering(target, chunks, groups, group, Spoken(segments[..i]), buffer, bufferLen, startTime, endTime)
    {
      SpokenNext(segments, i);
      var text := TextOf(segments[i]);
      if text == "" {
        assert Spoken(segments[..i + 1]) == Spoken(segments[..i]);
        continue;
      }
      ghost var u, spoken := Utterance(text, segments[i].start, segments[i].end), Spoken(segments[..i]);
      if buffer != [] && bufferLen + |text| > target {
        FilledWell(target, groups, group, spoken);
        chunks := Flush(chunks, buffer, startTime, endTime, groups, group);
        buffer, bufferLen, startTime := [], 0, None;
        StartsNew(target, groups, group, spoken, u);
        groups, group := groups + [group], [];
        assert group + [u] == [u];
        NothingBuffered();
      } else {
        FillsUp(target, groups, group, spoken, u);
      }
      if startTime == None {
        startTime := segments[i].start;
      }
      endTime := if segments[i].end.Some? then segments[i].end.value else endTime;
      buffer, bufferLen := buffer + [text], bufferLen + |text| + 1;
      Appended(group, u);
      Appended(spoken, u);
      group := group + [u];
    }
    assert segments[..|segments|] == segments;
    FilledWell(target, groups, group, Spoken(segments));
    chunks := Flush(chunks, buffer, startTime, endTime, groups, group);
    groups := FilledUp(target, groups, group, Spoken(segments));
  }

  lemma NothingSpoken(target: int)
    ensures Made([], []) && Filling(target, [], [], []) && Spoken([]) == [] && LastEnd([]) == 0.0
    ensures Load([]) == 0 && FirstStart([]) == None
  {
  }

  lemma NothingBuffered()
    ensures TextsOf([]) == [] && Load([]) == 0 && FirstStart([]) == None
  {
  }

  lemma FilledWell(target: int, groups: seq<seq<Utterance>>, group: seq<Utterance>, spoken: seq<Utterance>)
    requires Filling(target, groups, group, spoken)
    ensures (forall u :: u in group ==> WellSpoken(u.text)) && Flatten(groups) + group == spoken
  {
    assert forall u :: u in group ==> u in Flatten(groups) + group;
  }

  lemma FilledUp(target: int, groups: seq<seq<Utterance>>, group: seq<Utterance>, spoken: seq<Utterance>)
    returns (all: seq<seq<Utterance>>)
    requires Filling(target, groups, group, spoken)
    ensures all == if group == [] then groups else groups + [group]
    ensures Partitions(target, all, spoken) && Greedy(target, all)
  {
    all := groups;
    if group != [] {
      FlattenAppend(groups, group);
      all := groups + [group];
    }
  }

  // ----- What greedy partitions are good for -----

  lemma {:induction false} WeightSplit(a: seq<string>, b: seq<string>)
    ensures Weight(a + b) == Weight(a) + Weight(b)
  {
    if b == [] {
      assert a + b == a;
    } else {
      var n := |b| - 1;
      assert (a + b)[..|a + b| - 1] == a + b[..n];
      WeightSplit(a, b[..n]);
    }
  }

  lemma LoadSplit(a: seq<Utterance>, b: seq<Utterance>)
    ensures Load(a + b) == Load(a) + Load(b)
  {
    assert TextsOf(a + b) == TextsOf(a) + TextsOf(b);
    WeightSplit(TextsOf(a), TextsOf(b));
  }

  /** Where a greedy group ends, no admissible group that starts inside or at
      its start reaches further. */
  lemma NoneReachesFurther(target: int, front: seq<Utterance>, first: seq<Utterance>, next: Utterance, back: seq<Utterance>)
    requires first != [] && Load(first) + |next.text| > target
    ensures !Fits(target, front + first + [next] + back)
  {
    LoadSplit(front + first + [next], back);
    LoadSplit(front + first, [next]);
    LoadSplit(front, first);
    assert [next] == [] + [next];
    Appended([], next);
  }

  /** A greedy partition of a tail of what another partition covers has no more
      groups than that partition. */
  lemma {:induction false} FewestFromHere(target: int, greedy: seq<seq<Utterance>>, other: seq<seq<Utterance>>, skipped: nat)
    requires Greedy(target, greedy) && (forall i :: 0 <= i < |greedy| ==> greedy[i] != [])
    requires forall i :: 0 <= i < |other| ==> Fits(target, other[i])
    requires skipped <= |Flatten(other)| && Flatten(greedy) == Flatten(other)[skipped..]
    ensures |greedy| <= |other|
    decreases |other|
  {
    if greedy != [] {
      var all, rest := Flatten(other), Flatten(other[1..]);
      var p := other[0];
      assert all == p + rest;
      if skipped >= |p| {
        assert all[skipped..] == rest[skipped - |p|..];
        FewestFromHere(target, greedy, other[1..], skipped - |p|);
      } else {
        var g, more := greedy[0], Flatten(greedy[1..]);
        assert all[skipped..] == g + more;
        if |greedy| > 1 {
          ReachesAsFar(target, greedy, p, rest, skipped);
          var after := skipped + |g| - |p|;
          assert more == all[skipped + |g|..] == rest[after..];
          GreedyTail(target, greedy);
          FewestFromHere(target, greedy[1..], other[1..], after);
        }
      }
    }
  }

  lemma GreedyTail(target: int, greedy: seq<seq<Utterance>>)
    requires greedy != [] && Greedy(target, greedy)
    ensures Greedy(target, greedy[1..])
  {
    var tail: seq<seq<Utterance>> := greedy[1..];
    forall i {:trigger tail[i]} | 0 <= i < |tail| - 1
      ensures tail[i + 1] != [] && Load(tail[i]) + |tail[i + 1][0].text| > target
    {
      assert tail[i] == greedy[i + 1] && tail[i + 1] == greedy[i + 2];
    }
    assert Greedy(target, tail);
  }

  lemma ReachesAsFar(target: int, greedy: seq<seq<Utterance>>, p: seq<Utterance>, rest: seq<Utterance>, skipped: nat)
    requires |greedy| > 1 && Greedy(target, greedy) && greedy[0] != [] && Fits(target, p)
    requires skipped < |p| && Flatten(greedy) == (p + rest)[skipped..]
    ensures skipped + |greedy[0]| >= |p|
  {
    var g, h := greedy[0], greedy[1];
    var more := Flatten(greedy[1..]);
    assert more == h + Flatten(greedy[1..][1..]);
    var k := skipped + |g|;
    if k < |p| {
      var next := p[k];
      assert (g + more)[|g|] == (p + rest)[skipped..][|g|] == next && (g + more)[|g|] == h[0];
      forall j | 0 <= j < |g| ensures p[skipped + j] == g[j] {
        assert (g + more)[j] == (p + rest)[skipped..][j];
      }
      assert p == p[..skipped] + g + [next] + p[k + 1..];
      NoneReachesFurther(target, p[..skipped], g, next, p[k + 1..]);
    }
  }

  /** Optimality: no admissible partition of the same segments has fewer groups. */
  lemma FewestGroups(target: int, greedy: seq<seq<Utterance>>, other: seq<seq<Utterance>>, spoken: seq<Utterance>)
    requires Partitions(target, greedy, spoken) && Greedy(target, greedy) && Partitions(target, other, spoken)
    ensures |greedy| <= |other|
  {
    assert Flatten(other)[0..] == Flatten(other);
    FewestFromHere(target, greedy, other, 0);
  }

  function Contents(chunks: seq<Chunk>): seq<string> {
    seq(|chunks|, i requires 0 <= i < |chunks| => chunks[i].content)
  }

  lemma {:induction false} JoinAppend(a: seq<string>, b: seq<string>)
    requires a != [] && b != []
    ensures Join(a + b) == Join(a) + " " + Join(b)
    decreases |b|
  {
    var n := |b| - 1;
    assert (a + b)[..|a + b| - 1] == a + b[..n];
    if n == 0 {
      assert a + b[..n] == a;
    } else {
      JoinAppend(a, b[..n]);
    }
  }

  lemma {:induction false} JoinFlattened(chunks: seq<Chunk>, groups: seq<seq<Utterance>>)
    requires |chunks| == |groups| && groups != []
    requires forall i :: 0 <= i < |groups| ==> groups[i] != [] && chunks[i].content == Join(TextsOf(groups[i]))
    ensures Join(Contents(chunks)) == Join(TextsOf(Flatten(groups))) && Flatten(groups) != []
  {
    var n := |groups| - 1;
    assert groups == groups[..n] + [groups[n]];
    FlattenAppend(groups[..n], groups[n]);
    var before, last := Flatten(groups[..n]), groups[n];
    assert TextsOf(before + last) == TextsOf(before) + TextsOf(last);
    assert Contents(chunks)[..n] == Contents(chunks[..n]);
    if n == 0 {
      assert before == [] && before + last == last;
      assert Contents(chunks) == [chunks[0].content];
    } else {
      JoinFlattened(chunks[..n], groups[..n]);
      JoinAppend(TextsOf(before), TextsOf(last));
    }
  }

  /** Nothing is lost: joined by blanks, the chunks are the non-blank segments
      joined by blanks. */
  lemma ChunksAreLossless(target: int, chunks: seq<Chunk>, groups: seq<seq<Utterance>>, segments: seq<Segment>)
    requires Made(chunks, groups) && Partitions(target, groups, Spoken(segments))
    ensures Join(Contents(chunks)) == Join(TextsOf(Spoken(segments)))
  {
    if groups != [] {
      forall i | 0 <= i < |groups| ensures chunks[i].content == Join(TextsOf(groups[i])) {
        assert Describes(chunks[i], groups, i);
      }
      JoinFlattened(chunks, groups);
    } else {
      assert Contents(chunks) == [] && TextsOf(Spoken(segments)) == [];
    }
  }

  /** A chunk is within the target length unless it is one segment whole. */
  lemma ChunksFit(target: int, chunks: seq<Chunk>, groups: seq<seq<Utterance>>, segments: seq<Segment>, k: nat)
    requires Made(chunks, groups) && Partitions(target, groups, Spoken(segments)) && k < |chunks|
    ensures |chunks[k].content| <= target || exists u :: u in Spoken(segments) && chunks[k].content == u.text
  {
    assert Describes(chunks[k], groups, k) && groups[k] != [] && Fits(target, groups[k]);
    SpokenWell(segments);
    MemberOfFlatten(groups, k);
    assert forall t :: t in TextsOf(groups[k]) ==> WellSpoken(t);
    JoinEnds(TextsOf(groups[k]));
    if |groups[k]| == 1 {
      assert groups[k][0] in Spoken(segments);
    }
  }

  lemma {:induction false} MemberOfFlatten<T>(groups: seq<seq<T>>, k: nat)
    requires k < |groups|
    ensures forall u :: u in groups[k] ==> u in Flatten(groups)
  {
    if k > 0 {
      MemberOfFlatten(groups[1..], k - 1);
    }
  }

  lemma {:induction false} GroupOf(groups: seq<seq<Utterance>>, u: Utterance) returns (k: nat)
    requires u in Flatten(groups)
    ensures k < |groups| && u in groups[k]
  {
    if u in groups[0] {
      k := 0;
    } else {
      var j := GroupOf(groups[1..], u);
      k := j + 1;
    }
  }

  lemma {:induction false} WeightAtLeast(texts: seq<string>, t: string)
    requires t in texts
    ensures |t| + 1 <= Weight(texts)
  {
    var n := |texts| - 1;
    if texts[n] != t {
      assert texts == texts[..n] + [texts[n]];
      WeightAtLeast(texts[..n], t);
    }
  }

  /** All chunks are within the target length if and only if all non-blank
      segments are. */
  lemma AllChunksFitIff(target: int, chunks: seq<Chunk>, groups: seq<seq<Utterance>>, segments: seq<Segment>)
    requires Made(chunks, groups) && Partitions(target, groups, Spoken(segments))
    ensures (forall k :: 0 <= k < |chunks| ==> |chunks[k].content| <= target)
       <==> (forall u :: u in Spoken(segments) ==> |u.text| <= target)
  {
    if forall u :: u in Spoken(segments) ==> |u.text| <= target {
      forall k | 0 <= k < |chunks| ensures |chunks[k].content| <= target {
        ChunksFit(target, chunks, groups, segments, k);
      }
    }
    if forall k :: 0 <= k < |chunks| ==> |chunks[k].content| <= target {
      forall u | u in Spoken(segments) ensures |u.text| <= target {
        var k := GroupOf(groups, u);
        SegmentWithinChunk(target, chunks, groups, segments, k, u);
        assert |chunks[k].content| <= target;
      }
    }
  }

  lemma SegmentWithinChunk(target: int, chunks: seq<Chunk>, groups: seq<seq<Utterance>>, segments: seq<Segment>,
                           k: nat, u: Utterance)
    requires Made(chunks, groups) && Partitions(target, groups, Spoken(segments)) && k < |chunks| && u in groups[k]
    ensures |u.text| <= |chunks[k].content|
  {
    assert Describes(chunks[k], groups, k) && groups[k] != [];
    SpokenWell(segments);
    MemberOfFlatten(groups, k);
    var texts := TextsOf(groups[k]);
    assert forall t :: t in texts ==> WellSpoken(t);
    var i :| 0 <= i < |groups[k]| && groups[k][i] == u;
    assert texts[i] == u.text;
    JoinEnds(texts);
    WeightAtLeast(texts, u.text);
  }
}
