/** Removal of duplicate choices from quiz questions (`_dedup_choices` in
    src/agents/test_generator.py, `is_well_formed` in src/core/schemas.py). */
module Choices {
  import opened Basics
  import opened Texts

  datatype QuestionKind = SingleChoice | MultiChoice | OpenAnswer

  datatype Question = Question(
    stem: string, kind: QuestionKind, choices: seq<string>, answerIdx: Option<int>, answerIndices: Option<seq<int>>)

  /** `is_well_formed`. */
  predicate IsWellFormed(q: Question) {
    Strip(q.stem) != "" && (q.kind.OpenAnswer? || (|q.choices| >= 2 && HasAnswer(q)))
  }

  predicate HasAnswer(q: Question) {
    match q.kind
    case OpenAnswer => true
    case SingleChoice => q.answerIdx.Some? && 0 <= q.answerIdx.value < |q.choices|
    case MultiChoice =>
      && q.answerIndices.Some? && q.answerIndices.value != []
      && forall i :: i in q.answerIndices.value ==> 0 <= i < |q.choices|
  }

  /** Some choice has the key. */
  predicate Has<T, K(==)>(key: T -> K, choices: seq<T>, k: K) {
    exists i :: 0 <= i < |choices| && key(choices[i]) == k
  }

  /** The choices whose key none before them has, in order. */
  function FirstOccurrences<T, K(==)>(key: T -> K, choices: seq<T>): seq<T> {
    if choices == [] then []
    else
      var n := |choices| - 1;
      FirstOccurrences(key, choices[..n]) + if Has(key, choices[..n], key(choices[n])) then [] else [choices[n]]
  }

  /** The first position of a key. */
  function Slot<T, K(==)>(key: T -> K, choices: seq<T>, k: K): (slot: nat)
    requires Has(key, choices, k)
    ensures slot < |choices| && key(choices[slot]) == k
    ensures forall j :: 0 <= j < slot ==> key(choices[j]) != k
  {
    var n := |choices| - 1;
    if Has(key, choices[..n], k) then Slot(key, choices[..n], k) else n
  }

  /** The numbers below n that are in s, in order. */
  function Sorted(s: set<nat>, n: nat): (r: seq<nat>)
    ensures forall i, j :: 0 <= i < j < |r| ==> r[i] < r[j]
    ensures forall x :: x in r <==> x in s && x < n
  {
    if n == 0 then []
    else
      var r := Sorted(s, n - 1);
      assert forall i :: 0 <= i < |r| ==> r[i] in r;
      if n - 1 in s then r + [n - 1] else r
  }

  /** Where the choices at the given positions have gone. */
  function Image(remap: map<int, nat>, indices: seq<int>): set<nat> {
    set i | i in indices && i in remap :: remap[i]
  }

  lemma HasNext<T, K>(key: T -> K, choices: seq<T>, c: T, k: K)
    ensures Has(key, choices + [c], k) <==> Has(key, choices, k) || key(c) == k
  {
    var more := choices + [c];
    assert more[|choices|] == c && forall i :: 0 <= i < |choices| ==> more[i] == choices[i];
  }

  lemma DistinctNext<T, K>(key: T -> K, choices: seq<T>, c: T)
    ensures FirstOccurrences(key, choices + [c]) == FirstOccurrences(key, choices) + if Has(key, choices, key(c)) then [] else [c]
  {
    assert (choices + [c])[..|choices|] == choices;
  }

  /** The kept choices have the keys of all choices, each once. */
  lemma {:induction false} DistinctIsDistinct<T, K>(key: T -> K, choices: seq<T>)
    ensures DistinctKeys(key, FirstOccurrences(key, choices))
    ensures forall k :: Has(key, FirstOccurrences(key, choices), k) <==> Has(key, choices, k)
  {
    if choices != [] {
      var n := |choices| - 1;
      var before, c := choices[..n], choices[n];
      assert choices == before + [c];
      DistinctIsDistinct(key, before);
      DistinctNext(key, before, c);
      forall k | true ensures Has(key, FirstOccurrences(key, choices), k) <==> Has(key, choices, k) {
        HasNext(key, before, c, k);
        HasNext(key, FirstOccurrences(key, before), c, k);
        if Has(key, before, key(c)) {
          assert FirstOccurrences(key, choices) == FirstOccurrences(key, before);
        }
      }
      assert !Has(key, before, key(c)) ==> !Has(key, FirstOccurrences(key, before), key(c));
    }
  }

  /** What is known after the choices before position i: `remap` and `seen` of the source. */
  ghost predicate Mapped<T, K(!new)>(key: T -> K, choices: seq<T>, chosen: seq<T>, remap: map<int, nat>, seen: map<K, nat>) {
    && chosen == FirstOccurrences(key, choices)
    && (forall k :: k in seen <==> Has(key, choices, k))
    && (forall k :: k in seen ==> Has(key, chosen, k) && seen[k] == Slot(key, chosen, k))
    && (forall i :: i in remap <==> 0 <= i < |choices|)
    && (forall i :: i in remap ==> Has(key, chosen, key(choices[i])) && remap[i] == Slot(key, chosen, key(choices[i])))
  }

  lemma SlotNext<T, K>(key: T -> K, chosen: seq<T>, c: T, k: K)
    requires !Has(key, chosen, key(c)) && (Has(key, chosen, k) || k == key(c))
    ensures Has(key, chosen + [c], k)
    ensures Slot(key, chosen + [c], k) == if k == key(c) then |chosen| else Slot(key, chosen, k)
  {
    HasNext(key, chosen, c, k);
    assert (chosen + [c])[..|chosen|] == chosen;
  }

  lemma MappedRepeat<T, K(!new)>(key: T -> K, choices: seq<T>, c: T, chosen: seq<T>, remap: map<int, nat>, seen: map<K, nat>)
    requires Mapped(key, choices, chosen, remap, seen) && key(c) in seen
    ensures Mapped(key, choices + [c], chosen, remap[|choices| := seen[key(c)]], seen)
  {
    hide Has, Slot, FirstOccurrences;
    DistinctNext(key, choices, c);
    assert chosen + [] == chosen;
    forall k | true ensures Has(key, choices + [c], k) <==> Has(key, choices, k) {
      HasNext(key, choices, c, k);
    }
    var more := choices + [c];
    assert forall i :: 0 <= i < |choices| ==> more[i] == choices[i];
  }

  lemma MappedNew<T, K(!new)>(key: T -> K, choices: seq<T>, c: T, chosen: seq<T>, remap: map<int, nat>, seen: map<K, nat>)
    requires Mapped(key, choices, chosen, remap, seen) && key(c) !in seen
    ensures Mapped(key, choices + [c], chosen + [c], remap[|choices| := |chosen|], seen[key(c) := |chosen|])
  {
    DistinctNext(key, choices, c);
    DistinctIsDistinct(key, choices);
    hide Has, Slot, FirstOccurrences;
    forall k | true
      ensures Has(key, choices + [c], k) <==> Has(key, choices, k) || key(c) == k
      ensures Has(key, choices + [c], k) ==>
        Has(key, chosen + [c], k) &&
        Slot(key, chosen + [c], k) == if k == key(c) then |chosen| else Slot(key, chosen, k)
    {
      HasNext(key, choices, c, k);
      if Has(key, choices, k) || key(c) == k {
        SlotNext(key, chosen, c, k);
      }
    }
    NewRemap(key, choices, c, chosen, remap);
  }

  lemma NewRemap<T, K>(key: T -> K, choices: seq<T>, c: T, chosen: seq<T>, remap: map<int, nat>)
    requires !Has(key, chosen, key(c)) && forall i :: i in remap <==> 0 <= i < |choices|
    requires forall i :: i in remap ==> Has(key, chosen, key(choices[i])) && remap[i] == Slot(key, chosen, key(choices[i]))
    ensures var after, more := remap[|choices| := |chosen|], choices + [c];
      forall i :: i in after ==>
        0 <= i < |more| && Has(key, chosen + [c], key(more[i])) && after[i] == Slot(key, chosen + [c], key(more[i]))
  {
    hide Has, Slot;
    var after, more := remap[|choices| := |chosen|], choices + [c];
    forall i | i in after
      ensures Has(key, chosen + [c], key(more[i])) && after[i] == Slot(key, chosen + [c], key(more[i]))
    {
      SlotNext(key, chosen, c, key(more[i]));
    }
  }

  /** `_dedup_choices`. */
  method DedupChoices(key: string -> string, q: Question) returns (r: Question)
    ensures q.kind.OpenAnswer? || q.choices == [] ==> r == q
    ensures !q.kind.OpenAnswer? && q.choices != [] ==> r == Deduplicated(key, q)
  {
    if q.kind.OpenAnswer? || q.choices == [] {
      return q;
    }
    var chosen, remap := KeepDistinct(key, q.choices);
    var answerIdx := if q.answerIdx.Some? && q.answerIdx.value in remap then Some(remap[q.answerIdx.value]) else None;
    var answerIndices :=
      if q.answerIndices.Some? then Some(Sorted(Image(remap, q.answerIndices.value), |chosen|)) else None;
    r := q.(choices := chosen, answerIdx := answerIdx, answerIndices := answerIndices);
  }

  /** The loop over the choices. */
  method KeepDistinct<T, K(==,!new)>(key: T -> K, choices: seq<T>) returns (chosen: seq<T>, remap: map<int, nat>)
    ensures chosen == FirstOccurrences(key, choices) && remap == Remap(key, choices)
  {
    hide Has, Slot;
    var seen: map<K, nat>;
    chosen, remap, seen := [], map[], map[];
    NothingMapped(key);
    for i := 0 to |choices|
      invariant Mapped(key, choices[..i], chosen, remap, seen)
    {
      assert choices[..i + 1] == choices[..i] + [choices[i]];
      var k := key(choices[i]);
      if k in seen {
        MappedRepeat(key, choices[..i], choices[i], chosen, remap, seen);
        remap := remap[i := seen[k]];
      } else {
        MappedNew(key, choices[..i], choices[i], chosen, remap, seen);
        seen := seen[k := |chosen|];
        remap := remap[i := seen[k]];
        chosen := chosen + [choices[i]];
      }
    }
    assert choices[..|choices|] == choices;
  }

  lemma NothingMapped<T, K(!new)>(key: T -> K)
    ensures Mapped(key, [], [], map[], map[])
  {
  }

  /** Where each choice goes: to the place of its key. */
  function Remap<T, K(==)>(key: T -> K, choices: seq<T>): (remap: map<int, nat>)
    ensures forall i :: i in remap <==> 0 <= i < |choices|
    ensures forall i :: i in remap ==> remap[i] < |FirstOccurrences(key, choices)|
    ensures forall i :: i in remap ==> key(FirstOccurrences(key, choices)[remap[i]]) == key(choices[i])
  {
    DistinctIsDistinct(key, choices);
    map i: int | 0 <= i < |choices| :: Slot(key, FirstOccurrences(key, choices), key(choices[i]))
  }

  function Deduplicated(key: string -> string, q: Question): Question {
    var chosen, remap := FirstOccurrences(key, q.choices), Remap(key, q.choices);
    q.(choices := chosen,
       answerIdx := if q.answerIdx.Some? && q.answerIdx.value in remap then Some(remap[q.answerIdx.value]) else None,
       answerIndices :=
         if q.answerIndices.Some? then Some(Sorted(Image(remap, q.answerIndices.value), |chosen|)) else None)
  }

  // ----- What deduplication means -----

  /** An index still in range points to a choice with the same key; an index out
      of range is dropped. */
  lemma AnswerStaysCorrect(key: string -> string, q: Question)
    ensures var r := Deduplicated(key, q);
      && DistinctKeys(key, r.choices)
      && (r.answerIdx.Some? <==> q.answerIdx.Some? && 0 <= q.answerIdx.value < |q.choices|)
      && (r.answerIdx.Some? ==> 0 <= r.answerIdx.value < |r.choices|)
      && (r.answerIdx.Some? ==> key(r.choices[r.answerIdx.value]) == key(q.choices[q.answerIdx.value]))
  {
    DistinctIsDistinct(key, q.choices);
  }

  /** The choice with key k is marked correct. */
  ghost predicate Marked(key: string -> string, choices: seq<string>, indices: seq<int>, k: string) {
    exists i :: i in indices && 0 <= i < |choices| && key(choices[i]) == k
  }

  /** The keys of the correct choices are the same before and after, and the
      indices come out sorted and in range. */
  lemma AnswerKeysAreKept(key: string -> string, q: Question, k: string)
    requires q.answerIndices.Some?
    ensures var r := Deduplicated(key, q);
      && r.answerIndices.Some?
      && (forall a, b :: 0 <= a < b < |r.answerIndices.value| ==> r.answerIndices.value[a] < r.answerIndices.value[b])
      && (forall j :: j in r.answerIndices.value ==> 0 <= j < |r.choices|)
      && (Marked(key, q.choices, q.answerIndices.value, k) <==> Marked(key, r.choices, r.answerIndices.value, k))
  {
    hide Has, Slot, FirstOccurrences;
    var r, remap := Deduplicated(key, q), Remap(key, q.choices);
    if Marked(key, q.choices, q.answerIndices.value, k) {
      var i :| i in q.answerIndices.value && 0 <= i < |q.choices| && key(q.choices[i]) == k;
      assert remap[i] in Image(remap, q.answerIndices.value) && remap[i] in r.answerIndices.value;
    }
    if Marked(key, r.choices, r.answerIndices.value, k) {
      var j :| j in r.answerIndices.value && 0 <= j < |r.choices| && key(r.choices[j]) == k;
      var i :| i in q.answerIndices.value && i in remap && remap[i] == j;
      assert 0 <= i < |q.choices| && key(q.choices[i]) == k;
    }
  }

  lemma {:induction false} DistinctIsIdempotent<T, K>(key: T -> K, choices: seq<T>)
    requires DistinctKeys(key, choices)
    ensures FirstOccurrences(key, choices) == choices
  {
    if choices != [] {
      DistinctIsIdempotent(key, choices[..|choices| - 1]);
    }
  }

  lemma {:induction false} SortedAgain(r: seq<nat>, s: set<nat>, n: nat)
    requires forall i, j :: 0 <= i < j < |r| ==> r[i] < r[j]
    requires forall x :: x in r <==> x in s && x < n
    ensures r == Sorted(s, n)
    decreases n
  {
    AtMost(r, n);
    if n > 0 {
      if n - 1 in s {
        assert n - 1 in r;
        FrontOfSorted(r, n - 1);
        SortedAgain(r[..|r| - 1], s, n - 1);
      } else {
        SortedAgain(r, s, n - 1);
      }
    }
  }

  lemma {:induction false} AtLeast(r: seq<nat>, i: nat)
    requires (forall j, k :: 0 <= j < k < |r| ==> r[j] < r[k]) && i < |r|
    ensures r[i] >= i
  {
    if i > 0 {
      AtLeast(r, i - 1);
    }
  }

  lemma AtMost(r: seq<nat>, n: nat)
    requires (forall i, j :: 0 <= i < j < |r| ==> r[i] < r[j]) && forall x :: x in r ==> x < n
    ensures |r| <= n
  {
    if r != [] {
      assert r[|r| - 1] in r;
      AtLeast(r, |r| - 1);
    }
  }

  lemma FrontOfSorted(r: seq<nat>, x: nat)
    requires (forall i, j :: 0 <= i < j < |r| ==> r[i] < r[j]) && x in r && forall y :: y in r ==> y <= x
    ensures r != [] && r == r[..|r| - 1] + [x]
    ensures forall y :: y in r[..|r| - 1] <==> y in r && y != x
  {
    LastIsGreatest(r, x);
    var front := r[..|r| - 1];
    assert r == front + [x];
    assert forall i :: 0 <= i < |front| ==> front[i] < x;
  }

  lemma LastIsGreatest(r: seq<nat>, x: nat)
    requires (forall i, j :: 0 <= i < j < |r| ==> r[i] < r[j]) && x in r && forall y :: y in r ==> y <= x
    ensures r != [] && r[|r| - 1] == x
  {
    var k :| 0 <= k < |r| && r[k] == x;
    assert r[|r| - 1] in r;
  }

  lemma SameKeySamePlace<T, K>(key: T -> K, choices: seq<T>, i: nat, j: nat)
    requires DistinctKeys(key, choices) && i < |choices| && j < |choices| && key(choices[i]) == key(choices[j])
    ensures i == j
  {
  }

  lemma RemapOfDistinct<T, K>(key: T -> K, choices: seq<T>)
    requires DistinctKeys(key, choices)
    ensures forall i :: 0 <= i < |choices| ==> i in Remap(key, choices) && Remap(key, choices)[i] == i
  {
    hide Has, Slot, FirstOccurrences, Remap, DistinctKeys;
    forall i | 0 <= i < |choices| ensures i in Remap(key, choices) && Remap(key, choices)[i] == i {
      PlaceOfDistinct(key, choices, i);
    }
  }

  lemma PlaceOfDistinct<T, K>(key: T -> K, choices: seq<T>, i: nat)
    requires DistinctKeys(key, choices) && i < |choices|
    ensures i in Remap(key, choices) && Remap(key, choices)[i] == i
  {
    hide Has, Slot, FirstOccurrences, Remap, DistinctKeys;
    DistinctIsIdempotent(key, choices);
    var at := Remap(key, choices)[i];
    assert key(FirstOccurrences(key, choices)[at]) == key(choices[i]);
    SameKeySamePlace(key, choices, at, i);
  }

  /** Doing it twice changes nothing more. */
  lemma DedupIsIdempotent(key: string -> string, q: Question)
    ensures Deduplicated(key, Deduplicated(key, q)) == Deduplicated(key, q)
  {
    var r := Deduplicated(key, q);
    DistinctIsDistinct(key, q.choices);
    DistinctIsIdempotent(key, r.choices);
    RemapOfDistinct(key, r.choices);
    hide Has, Slot, FirstOccurrences;
    if r.answerIndices.Some? {
      AnswerKeysAreKept(key, q, "");
      SortedAgain(r.answerIndices.value, Image(Remap(key, r.choices), r.answerIndices.value), |r.choices|);
    }
  }

  /** Whether a choice question survives the check that follows: it needs two
      different choices; a single-choice question must have had its answer in
      range, a multiple-choice question needs one correct index in range. */
  lemma WellFormedAfterDedup(key: string -> string, q: Question)
    requires !q.kind.OpenAnswer?
    ensures IsWellFormed(Deduplicated(key, q)) <==>
      Strip(q.stem) != "" && |FirstOccurrences(key, q.choices)| >= 2 && HasUsableAnswer(q)
  {
    hide Has, Slot, FirstOccurrences, Strip;
    if q.kind.MultiChoice? && q.answerIndices.Some? {
      SomeIndexKept(key, q);
    }
  }

  ghost predicate HasUsableAnswer(q: Question) {
    && (q.kind.SingleChoice? ==> q.answerIdx.Some? && 0 <= q.answerIdx.value < |q.choices|)
    && (q.kind.MultiChoice? ==> q.answerIndices.Some? && exists i :: i in q.answerIndices.value && 0 <= i < |q.choices|)
  }

  lemma SomeIndexKept(key: string -> string, q: Question)
    requires q.answerIndices.Some?
    ensures var r := Deduplicated(key, q);
      && r.answerIndices.Some? && (forall j :: j in r.answerIndices.value ==> 0 <= j < |r.choices|)
      && (r.answerIndices.value != [] <==> exists i :: i in q.answerIndices.value && 0 <= i < |q.choices|)
  {
    hide Has, Slot, FirstOccurrences;
    var r, remap := Deduplicated(key, q), Remap(key, q.choices);
    if i :| i in q.answerIndices.value && 0 <= i < |q.choices| {
      assert remap[i] in Image(remap, q.answerIndices.value) && remap[i] in r.answerIndices.value;
    }
    if r.answerIndices.value != [] {
      var j := r.answerIndices.value[0];
      assert j in r.answerIndices.value;
      var i :| i in q.answerIndices.value && i in remap && remap[i] == j;
    }
  }
}
