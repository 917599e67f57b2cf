/** Near-duplicate lemmas and their merging (src/agents/terminology.py). */
module Terms {
  import opened Texts
  import opened Sums

  const MIN_SHARED_PREFIX: nat := 4
  const MAX_INFLECTION_SUFFIX: nat := 2
  const RU_INFLECTION_ENDINGS: set<char> :=
    {'\U{430}', '\U{44F}', '\U{43E}', '\U{451}', '\U{435}', '\U{443}', '\U{44E}', '\U{438}', '\U{44B}', '\U{44D}',
     '\U{44C}', '\U{44A}'}

  function Front<T>(s: seq<T>): seq<T>
    requires s != []
  {
    s[..|s| - 1]
  }

  function Last<T>(s: seq<T>): T
    requires s != []
  {
    s[|s| - 1]
  }

  /** `_rule1_same_length`. */
  predicate Rule1(a: string, b: string)
    requires a != "" && b != ""
  {
    && Front(a) == Front(b) && |Front(a)| >= MIN_SHARED_PREFIX
    && Last(a) in RU_INFLECTION_ENDINGS && Last(b) in RU_INFLECTION_ENDINGS
  }

  /** `_rule2_prefix_relationship`. */
  predicate Rule2(a: string, b: string) {
    var (shorter, longer) := if |a| < |b| then (a, b) else (b, a);
    && |longer| - |shorter| <= MAX_INFLECTION_SUFFIX && |shorter| >= MIN_SHARED_PREFIX
    && shorter <= longer
    && forall c :: c in longer[|shorter|..] ==> c in RU_INFLECTION_ENDINGS
  }

  predicate NearWords(a: string, b: string)
    requires a != "" && b != ""
  {
    a == b || if |a| == |b| then Rule1(a, b) else Rule2(a, b)
  }

  predicate Blank(s: string) {
    Words(s) == []
  }

  /** `_are_near_duplicate_lemmas`; two blank lemmas would be an index error. */
  predicate NearDuplicate(a: string, b: string)
    requires !Blank(a) && !Blank(b)
  {
    var wa, wb := Words(a), Words(b);
    assert Last(wa) in wa && Last(wb) in wb;
    Front(wa) == Front(wb) && NearWords(Last(wa), Last(wb))
  }

  // ----- What being close means -----

  /** The vowels and signs that may end a Russian word form: а, я, о, ё, е, у, ю, и, ы, э, ь, ъ. */
  predicate IsEnding(c: char) {
    c in "\U{430}\U{44F}\U{43E}\U{451}\U{435}\U{443}\U{44E}\U{438}\U{44B}\U{44D}\U{44C}\U{44A}"
  }

  /** The words are the given stem of four letters or more, each with one ending. */
  predicate EndsOtherwise(a: string, b: string, stem: string, p: char, q: char) {
    |stem| >= 4 && a == stem + [p] && b == stem + [q] && IsEnding(p) && IsEnding(q)
  }

  /** The longer word is the shorter, of four letters or more, with one or two endings. */
  predicate EndsLonger(shorter: string, longer: string, tail: string) {
    |shorter| >= 4 && longer == shorter + tail && 1 <= |tail| <= 2 && forall c :: c in tail ==> IsEnding(c)
  }

  /** The forms are the same, differ in one ending, or one has an ending or two more. */
  ghost predicate SameWord(a: string, b: string) {
    || a == b
    || (exists stem, p, q :: EndsOtherwise(a, b, stem, p, q))
    || (exists tail :: EndsLonger(a, b, tail))
    || (exists tail :: EndsLonger(b, a, tail))
  }

  lemma EndingsAgree(c: char)
    ensures IsEnding(c) <==> c in RU_INFLECTION_ENDINGS
  {
    var all := "\U{430}\U{44F}\U{43E}\U{451}\U{435}\U{443}\U{44E}\U{438}\U{44B}\U{44D}\U{44C}\U{44A}";
    assert all[0] == '\U{430}' && all[1] == '\U{44F}' && all[2] == '\U{43E}' && all[3] == '\U{451}';
    assert all[4] == '\U{435}' && all[5] == '\U{443}' && all[6] == '\U{44E}' && all[7] == '\U{438}';
    assert all[8] == '\U{44B}' && all[9] == '\U{44D}' && all[10] == '\U{44C}' && all[11] == '\U{44A}';
  }

  lemma NearWordsAreForms(a: string, b: string)
    requires a != "" && b != ""
    ensures NearWords(a, b) <==> SameWord(a, b)
  {
    hide IsEnding;
    forall c | true ensures IsEnding(c) <==> c in RU_INFLECTION_ENDINGS {
      EndingsAgree(c);
    }
    if NearWords(a, b) && a != b {
      if |a| == |b| {
        assert EndsOtherwise(a, b, Front(a), Last(a), Last(b));
      } else if |a| < |b| {
        assert EndsLonger(a, b, b[|a|..]);
      } else {
        assert EndsLonger(b, a, a[|b|..]);
      }
    }
    if stem, p, q :| EndsOtherwise(a, b, stem, p, q) {
      assert Front(a) == stem == Front(b) && Last(a) == p && Last(b) == q;
    }
    if tail :| EndsLonger(a, b, tail) {
      assert b[|a|..] == tail;
    }
    if tail :| EndsLonger(b, a, tail) {
      assert a[|b|..] == tail;
    }
  }

  /** Two lemmas are near-duplicates if and only if they agree in all words but the
      last and the last are forms of one word. */
  lemma NearDuplicateIff(x: string, y: string)
    requires !Blank(x) && !Blank(y)
    ensures NearDuplicate(x, y) <==>
      exists before, a, b :: Words(x) == before + [a] && Words(y) == before + [b] && SameWord(a, b)
  {
    hide SameWord, NearWords;
    var wx, wy := Words(x), Words(y);
    assert Last(wx) in wx && Last(wy) in wy;
    NearWordsAreForms(Last(wx), Last(wy));
    assert wx == Front(wx) + [Last(wx)] && wy == Front(wy) + [Last(wy)];
  }

  lemma NearSymmetric(a: string, b: string)
    requires !Blank(a) && !Blank(b) && NearDuplicate(a, b)
    ensures NearDuplicate(b, a)
  {
    var x, y := Last(Words(a)), Last(Words(b));
    if |x| == |y| && x != y {
      assert Rule1(x, y) && Front(x) == Front(y);
    }
  }

  /** The relation is not transitive: a stem, the stem with two and with four
      inflection endings. */
  lemma NearIsNotTransitive(stem: string, e: char)
    requires |stem| >= MIN_SHARED_PREFIX && (forall c :: c in stem ==> !IsSpace(c)) && e in RU_INFLECTION_ENDINGS
    ensures var a, b, c := stem, stem + [e, e], stem + [e, e, e, e];
      !Blank(a) && !Blank(b) && !Blank(c) && NearDuplicate(a, b) && NearDuplicate(b, c) && !NearDuplicate(a, c)
  {
    var a, b, c := stem, stem + [e, e], stem + [e, e, e, e];
    assert !IsSpace(e);
    OneWord("", a);
    OneWord("", b);
    OneWord("", c);
    assert "" + a == a && "" + b == b && "" + c == c;
    assert Words(a) == [a] && Words(b) == [b] && Words(c) == [c];
    assert a <= b <= c && b[|a|..] == [e, e] && c[|b|..] == [e, e];
  }

  // ----- Groups -----

  /** Distinct lemmas, none of them blank: the keys of the frequency table. */
  predicate Keys(keys: seq<string>) {
    (forall i, j :: 0 <= i < j < |keys| ==> keys[i] != keys[j]) && forall k :: k in keys ==> !Blank(k)
  }

  predicate Covers(leaders: seq<string>, x: string)
    requires !Blank(x) && forall l :: l in leaders ==> !Blank(l)
  {
    exists l :: l in leaders && (l == x || NearDuplicate(l, x))
  }

  /** The lemmas that no earlier leader is close to. */
  function Leaders(keys: seq<string>): (leaders: seq<string>)
    requires forall k :: k in keys ==> !Blank(k)
    ensures forall l :: l in leaders ==> l in keys
  {
    if keys == [] then []
    else
      var before := Leaders(Front(keys));
      if Covers(before, Last(keys)) then before else before + [Last(keys)]
  }

  /** The first leader that is the lemma or close to it. */
  function LeaderOf(leaders: seq<string>, x: string): (l: string)
    requires !Blank(x) && (forall l :: l in leaders ==> !Blank(l)) && Covers(leaders, x)
    ensures l in leaders && (l == x || NearDuplicate(l, x))
  {
    if leaders[0] == x || NearDuplicate(leaders[0], x) then leaders[0] else
      assert leaders == [leaders[0]] + leaders[1..];
      LeaderOf(leaders[1..], x)
  }

  /** More leaders do not change the leader of a covered lemma. */
  lemma {:induction false} LeaderStays(leaders: seq<string>, more: string, x: string)
    requires !Blank(x) && !Blank(more) && forall l :: l in leaders ==> !Blank(l)
    ensures Covers(leaders, x) ==> Covers(leaders + [more], x) && LeaderOf(leaders + [more], x) == LeaderOf(leaders, x)
    ensures !Covers(leaders, x) && (more == x || NearDuplicate(more, x)) ==>
      Covers(leaders + [more], x) && LeaderOf(leaders + [more], x) == more
  {
    assert more in leaders + [more] && forall l :: l in leaders ==> l in leaders + [more];
    if leaders != [] {
      assert leaders == [leaders[0]] + leaders[1..];
      assert (leaders + [more])[1..] == leaders[1..] + [more];
      LeaderStays(leaders[1..], more, x);
    }
  }

  lemma {:induction false} LeadersCover(keys: seq<string>)
    requires Keys(keys)
    ensures forall k :: k in keys ==> Covers(Leaders(keys), k)
    ensures forall i, j :: 0 <= i < j < |Leaders(keys)| ==>
      Leaders(keys)[i] != Leaders(keys)[j] && !NearDuplicate(Leaders(keys)[i], Leaders(keys)[j])
  {
    if keys != [] {
      var before := Leaders(Front(keys));
      assert keys == Front(keys) + [Last(keys)];
      LeadersCover(Front(keys));
      forall k | k in keys ensures Covers(Leaders(keys), k) {
        assert forall l :: l in before ==> l in before + [Last(keys)];
        assert Last(keys) in before + [Last(keys)];
        if k in Front(keys) {
          assert Covers(before, k);
        }
      }
    }
  }

  /** Distinct leaders are never near-duplicates, in either order. */
  lemma LeadersApart(keys: seq<string>, a: string, b: string)
    requires Keys(keys) && a in Leaders(keys) && b in Leaders(keys) && a != b
    ensures !NearDuplicate(a, b)
  {
    LeadersCover(keys);
    var leaders := Leaders(keys);
    var i :| 0 <= i < |leaders| && leaders[i] == a;
    var j :| 0 <= j < |leaders| && leaders[j] == b;
    if NearDuplicate(a, b) {
      NearSymmetric(a, b);
    }
  }

  lemma LeaderOfLeader(keys: seq<string>, l: string)
    requires Keys(keys) && l in Leaders(keys)
    ensures Covers(Leaders(keys), l) && LeaderOf(Leaders(keys), l) == l
  {
    LeadersCover(keys);
    var first := LeaderOf(Leaders(keys), l);
    if first != l {
      LeadersApart(keys, first, l);
    }
  }

  /** The groups known when the given lemmas lead. */
  ghost predicate GroupedBy(keys: seq<string>, leaders: seq<string>, groupKey: map<string, string>)
    requires (forall k :: k in keys ==> !Blank(k)) && (forall l :: l in leaders ==> !Blank(l))
  {
    && (forall x :: x in groupKey ==> x in keys)
    && forall x :: x in keys ==>
      (x in groupKey <==> Covers(leaders, x)) && (x in groupKey ==> groupKey[x] == LeaderOf(leaders, x))
  }

  /** The same while a new leader a, at position i, collects lemmas before position j. */
  ghost predicate Collecting(keys: seq<string>, leaders: seq<string>, i: nat, j: nat, groupKey: map<string, string>)
    requires (forall k :: k in keys ==> !Blank(k)) && (forall l :: l in leaders ==> !Blank(l))
    requires i < j <= |keys|
  {
    && (forall x :: x in groupKey ==> x in keys)
    && forall x :: x in keys ==>
      && (x in groupKey <==> Covers(leaders, x) || x == keys[i] || (x in keys[i + 1..j] && NearDuplicate(keys[i], x)))
      && (x in groupKey ==> groupKey[x] == if Covers(leaders, x) then LeaderOf(leaders, x) else keys[i])
  }

  lemma LeadersNext(keys: seq<string>, i: nat)
    requires Keys(keys) && i < |keys|
    ensures Keys(keys[..i]) && Keys(keys[..i + 1])
    ensures Leaders(keys[..i + 1]) ==
      if Covers(Leaders(keys[..i]), keys[i]) then Leaders(keys[..i]) else Leaders(keys[..i]) + [keys[i]]
    ensures forall l :: l in Leaders(keys[..i]) ==> !Blank(l)
  {
    assert Front(keys[..i + 1]) == keys[..i];
  }

  lemma Collected(keys: seq<string>, i: nat, groupKey: map<string, string>)
    requires Keys(keys) && i < |keys| && Keys(keys[..i]) && !Covers(Leaders(keys[..i]), keys[i])
    requires Collecting(keys, Leaders(keys[..i]), i, |keys|, groupKey)
    ensures GroupedBy(keys, Leaders(keys[..i]) + [keys[i]], groupKey)
  {
    var leaders, a := Leaders(keys[..i]), keys[i];
    LeadersCover(keys[..i]);
    forall x | x in keys
      ensures x in groupKey <==> Covers(leaders + [a], x)
      ensures x in groupKey ==> groupKey[x] == LeaderOf(leaders + [a], x)
    {
      LeaderStays(leaders, a, x);
      var k :| 0 <= k < |keys| && keys[k] == x;
      if k < i {
        assert keys[..i][k] == x;
        assert Covers(leaders, x);
      } else if k > i {
        assert keys[i + 1..|keys|][k - i - 1] == x;
      }
    }
  }

  lemma CollectingStarts(keys: seq<string>, leaders: seq<string>, i: nat, groupKey: map<string, string>)
    requires Keys(keys) && (forall l :: l in leaders ==> !Blank(l)) && i < |keys|
    requires GroupedBy(keys, leaders, groupKey) && !Covers(leaders, keys[i])
    ensures Collecting(keys, leaders, i, i + 1, groupKey[keys[i] := keys[i]])
  {
    hide NearDuplicate, Covers, LeaderOf, Blank;
  }

  lemma CollectingGoesOn(keys: seq<string>, leaders: seq<string>, i: nat, j: nat, groupKey: map<string, string>)
    requires Keys(keys) && (forall l :: l in leaders ==> !Blank(l)) && i < j < |keys|
    requires Collecting(keys, leaders, i, j, groupKey)
    ensures Collecting(keys, leaders, i, j + 1,
      if keys[j] !in groupKey && NearDuplicate(keys[i], keys[j]) then groupKey[keys[j] := keys[i]] else groupKey)
  {
    hide NearDuplicate, Covers, LeaderOf, Blank;
    assert keys[i + 1..j + 1] == keys[i + 1..j] + [keys[j]];
  }

  /** The inner grouping loop: lemma i leads and collects what is close to it. */
  method Collect(keys: seq<string>, i: nat, known: map<string, string>) returns (groupKey: map<string, string>)
    requires Keys(keys) && i < |keys| && Keys(keys[..i]) && !Covers(Leaders(keys[..i]), keys[i])
    requires GroupedBy(keys, Leaders(keys[..i]), known)
    ensures GroupedBy(keys, Leaders(keys[..i]) + [keys[i]], groupKey)
  {
    hide NearDuplicate, Covers, LeaderOf, Blank, Collecting, GroupedBy;
    CollectingStarts(keys, Leaders(keys[..i]), i, known);
    groupKey := known[keys[i] := keys[i]];
    for j := i + 1 to |keys|
      invariant Collecting(keys, Leaders(keys[..i]), i, j, groupKey)
    {
      CollectingGoesOn(keys, Leaders(keys[..i]), i, j, groupKey);
      if keys[j] !in groupKey && NearDuplicate(keys[i], keys[j]) {
        groupKey := groupKey[keys[j] := keys[i]];
      }
    }
    Collected(keys, i, groupKey);
  }

  /** The outer grouping loop. */
  method GroupKeys(keys: seq<string>) returns (groupKey: map<string, string>)
    requires Keys(keys)
    ensures GroupedBy(keys, Leaders(keys), groupKey)
  {
    hide NearDuplicate, Covers, LeaderOf, Blank, Leaders;
    groupKey := map[];
    NothingGrouped(keys);
    for i := 0 to |keys|
      invariant Keys(keys[..i]) && GroupedBy(keys, Leaders(keys[..i]), groupKey)
    {
      LeadersNext(keys, i);
      if keys[i] !in groupKey {
        groupKey := Collect(keys, i, groupKey);
      }
    }
    assert keys[..|keys|] == keys;
  }

  lemma NothingGrouped(keys: seq<string>)
    requires Keys(keys)
    ensures keys[..0] == [] && Leaders([]) == [] && GroupedBy(keys, [], map[])
  {
  }

  // ----- Merging -----

  /** The surface form, label and chunk of a lemma's first occurrence. */
  datatype Sighting = Sighting(surface: string, kind: string, chunkId: string)

  /** Three tables over the same lemmas. */
  datatype Tables = Tables(frequency: map<string, nat>, chunkIds: map<string, set<string>>, firstSeen: map<string, Sighting>)

  predicate Over(lemmas: set<string>, t: Tables) {
    t.frequency.Keys == t.chunkIds.Keys == t.firstSeen.Keys == lemmas
  }

  function Members(groupKey: map<string, string>, l: string): set<string> {
    set x | x in groupKey && groupKey[x] == l
  }

  function Grouped(groupKey: map<string, string>, groups: set<string>): set<string> {
    set x | x in groupKey && groupKey[x] in groups
  }

  ghost function Total(frequency: map<string, nat>, lemmas: set<string>): nat {
    Sum(lemmas, (x: string) => if x in frequency then frequency[x] else 0)
  }

  function IdsOfAll(chunkIds: map<string, set<string>>, lemmas: set<string>): set<string> {
    set x, id | x in lemmas && x in chunkIds && id in chunkIds[x] :: id
  }

  /** More frequent, or as frequent and not after in the order of strings. */
  predicate Better(frequency: map<string, nat>, a: string, b: string)
    requires a in frequency && b in frequency
  {
    frequency[a] > frequency[b] || (frequency[a] == frequency[b] && (a == b || Before(a, b)))
  }

  predicate BestOf(frequency: map<string, nat>, rep: string, members: set<string>) {
    && rep in members && members <= frequency.Keys
    && forall m :: m in members ==> Better(frequency, rep, m)
  }

  lemma BetterTransitive(frequency: map<string, nat>, a: string, b: string, c: string)
    requires a in frequency && b in frequency && c in frequency
    requires Better(frequency, a, b) && Better(frequency, b, c)
    ensures Better(frequency, a, c)
  {
    if Before(a, b) && Before(b, c) {
      BeforeTransitive(a, b, c);
    }
  }

  lemma TotalOneMore(frequency: map<string, nat>, lemmas: set<string>, x: string)
    requires x !in lemmas && x in frequency
    ensures Total(frequency, lemmas + {x}) == Total(frequency, lemmas) + frequency[x]
  {
    SumTakeOut(lemmas + {x}, (y: string) => if y in frequency then frequency[y] else 0, x);
    assert lemmas + {x} - {x} == lemmas;
  }

  /** The representative, the total frequency and the chunks of one group. */
  method Reduce(members: set<string>, t: Tables) returns (rep: string, total: nat, ids: set<string>)
    requires members != {} && members <= t.frequency.Keys && Over(t.frequency.Keys, t)
    ensures BestOf(t.frequency, rep, members)
    ensures total == Total(t.frequency, members) && ids == IdsOfAll(t.chunkIds, members)
  {
    rep :| rep in members;
    total, ids := t.frequency[rep], t.chunkIds[rep];
    TotalOneMore(t.frequency, {}, rep);
    assert {} + {rep} == {rep};
    BeforeTotal(rep, rep);
    var todo := members - {rep};
    assert members - todo == {rep};
    while todo != {}
      invariant todo <= members && BestOf(t.frequency, rep, members - todo)
      invariant total == Total(t.frequency, members - todo) && ids == IdsOfAll(t.chunkIds, members - todo)
      decreases todo
    {
      var m :| m in todo;
      ghost var done := members - todo;
      BestOneMore(t.frequency, rep, done, m);
      TotalOneMore(t.frequency, done, m);
      todo := todo - {m};
      assert members - todo == done + {m};
      assert IdsOfAll(t.chunkIds, done + {m}) == IdsOfAll(t.chunkIds, done) + t.chunkIds[m];
      if t.frequency[m] > t.frequency[rep] || (t.frequency[m] == t.frequency[rep] && Before(m, rep)) {
        rep := m;
      }
      total, ids := total + t.frequency[m], ids + t.chunkIds[m];
    }
    assert members - todo == members;
  }

  lemma BestOneMore(frequency: map<string, nat>, rep: string, done: set<string>, m: string)
    requires BestOf(frequency, rep, done) && m in frequency
    ensures BestOf(frequency,
      if frequency[m] > frequency[rep] || (frequency[m] == frequency[rep] && Before(m, rep)) then m else rep, done + {m})
  {
    BeforeTotal(m, rep);
    if Better(frequency, m, rep) {
      forall x | x in done ensures Better(frequency, m, x) {
        BetterTransitive(frequency, m, rep, x);
      }
    }
  }

  /** One entry stands for one group. */
  ghost predicate Represents(groupKey: map<string, string>, t: Tables, merged: Tables, rep: string)
    requires rep in merged.frequency && rep in merged.chunkIds && rep in merged.firstSeen
  {
    && rep in groupKey && rep in t.firstSeen
    && var members := Members(groupKey, groupKey[rep]);
    && BestOf(t.frequency, rep, members)
    && merged.frequency[rep] == Total(t.frequency, members)
    && merged.chunkIds[rep] == IdsOfAll(t.chunkIds, members)
    && merged.firstSeen[rep] == t.firstSeen[rep]
  }

  /** The merged tables: one entry for each of the given groups, and no occurrence lost. */
  ghost predicate MergedFrom(groupKey: map<string, string>, t: Tables, groups: set<string>, merged: Tables) {
    && Over(merged.frequency.Keys, merged)
    && (forall rep :: rep in merged.frequency ==> rep in groupKey && groupKey[rep] in groups && Represents(groupKey, t, merged, rep))
    && (forall l :: l in groups ==> exists rep :: rep in merged.frequency && rep in groupKey && groupKey[rep] == l)
    && Total(merged.frequency, merged.frequency.Keys) == Total(t.frequency, Grouped(groupKey, groups))
  }

  function WithEntry(merged: Tables, rep: string, total: nat, ids: set<string>, sighting: Sighting): Tables {
    Tables(merged.frequency[rep := total], merged.chunkIds[rep := ids], merged.firstSeen[rep := sighting])
  }

  lemma MergedOneMore(groupKey: map<string, string>, t: Tables, groups: set<string>, merged: Tables, l: string, rep: string)
    requires MergedFrom(groupKey, t, groups, merged) && l !in groups && groupKey.Keys == t.frequency.Keys
    requires Over(t.frequency.Keys, t) && BestOf(t.frequency, rep, Members(groupKey, l))
    ensures MergedFrom(groupKey, t, groups + {l},
      WithEntry(merged, rep, Total(t.frequency, Members(groupKey, l)), IdsOfAll(t.chunkIds, Members(groupKey, l)),
                t.firstSeen[rep]))
  {
    var total, ids := Total(t.frequency, Members(groupKey, l)), IdsOfAll(t.chunkIds, Members(groupKey, l));
    var after := WithEntry(merged, rep, total, ids, t.firstSeen[rep]);
    hide Total, IdsOfAll, BestOf;
    assert rep in groupKey && groupKey[rep] == l by {
      IsMember(groupKey, t, l, rep);
    }
    assert rep !in merged.frequency;
    StillRepresented(groupKey, t, groups, merged, l, rep, after);
    EveryGroupHasEntry(groupKey, t, groups, merged, l, rep, after);
    TotalsAgree(groupKey, t, groups, merged, l, rep, after);
  }

  lemma IsMember(groupKey: map<string, string>, t: Tables, l: string, rep: string)
    requires BestOf(t.frequency, rep, Members(groupKey, l))
    ensures rep in groupKey && groupKey[rep] == l && rep in t.frequency
  {
  }

  lemma StillRepresented(groupKey: map<string, string>, t: Tables, groups: set<string>, merged: Tables,
                         l: string, rep: string, after: Tables)
    requires MergedFrom(groupKey, t, groups, merged) && l !in groups && rep !in merged.frequency
    requires rep in groupKey && groupKey[rep] == l && rep in t.firstSeen
    requires BestOf(t.frequency, rep, Members(groupKey, l))
    requires after == WithEntry(merged, rep, Total(t.frequency, Members(groupKey, l)),
                                IdsOfAll(t.chunkIds, Members(groupKey, l)), t.firstSeen[rep])
    ensures Over(after.frequency.Keys, after)
    ensures forall r :: r in after.frequency ==> r in groupKey && groupKey[r] in groups + {l} && Represents(groupKey, t, after, r)
  {
    hide Total, IdsOfAll, BestOf, Represents, Members, MergedFrom;
    MergedAligned(groupKey, t, groups, merged);
    forall r | r in after.frequency ensures r in groupKey && groupKey[r] in groups + {l} && Represents(groupKey, t, after, r) {
      if r != rep {
        EntryOf(groupKey, t, groups, merged, r);
        StaysRepresented(groupKey, t, merged, after, r);
      } else {
        NewlyRepresented(groupKey, t, l, rep, after);
      }
    }
  }

  lemma MergedAligned(groupKey: map<string, string>, t: Tables, groups: set<string>, merged: Tables)
    requires MergedFrom(groupKey, t, groups, merged)
    ensures Over(merged.frequency.Keys, merged)
  {
  }

  lemma EntryOf(groupKey: map<string, string>, t: Tables, groups: set<string>, merged: Tables, r: string)
    requires MergedFrom(groupKey, t, groups, merged) && r in merged.frequency
    ensures r in merged.chunkIds && r in merged.firstSeen
    ensures r in groupKey && groupKey[r] in groups && Represents(groupKey, t, merged, r)
  {
  }

  lemma StaysRepresented(groupKey: map<string, string>, t: Tables, merged: Tables, after: Tables, r: string)
    requires Over(merged.frequency.Keys, merged) && Over(after.frequency.Keys, after)
    requires r in merged.frequency && r in after.frequency && Represents(groupKey, t, merged, r)
    requires after.frequency[r] == merged.frequency[r] && after.chunkIds[r] == merged.chunkIds[r]
    requires after.firstSeen[r] == merged.firstSeen[r]
    ensures Represents(groupKey, t, after, r)
  {
  }

  lemma NewlyRepresented(groupKey: map<string, string>, t: Tables, l: string, rep: string, after: Tables)
    requires rep in groupKey && groupKey[rep] == l && rep in t.firstSeen && Over(after.frequency.Keys, after)
    requires rep in after.frequency && BestOf(t.frequency, rep, Members(groupKey, l))
    requires after.frequency[rep] == Total(t.frequency, Members(groupKey, l))
    requires after.chunkIds[rep] == IdsOfAll(t.chunkIds, Members(groupKey, l))
    requires after.firstSeen[rep] == t.firstSeen[rep]
    ensures Represents(groupKey, t, after, rep)
  {
  }

  lemma EveryGroupHasEntry(groupKey: map<string, string>, t: Tables, groups: set<string>, merged: Tables,
                           l: string, rep: string, after: Tables)
    requires MergedFrom(groupKey, t, groups, merged) && rep in groupKey && groupKey[rep] == l
    requires after.frequency.Keys == merged.frequency.Keys + {rep}
    ensures forall g :: g in groups + {l} ==> exists r :: r in after.frequency && r in groupKey && groupKey[r] == g
  {
    hide Represents, Total;
    forall g | g in groups + {l} ensures exists r :: r in after.frequency && r in groupKey && groupKey[r] == g {
      if g == l {
        assert rep in after.frequency;
      } else {
        var r :| r in merged.frequency && r in groupKey && groupKey[r] == g;
        assert r in after.frequency;
      }
    }
  }

  lemma TotalsAgree(groupKey: map<string, string>, t: Tables, groups: set<string>, merged: Tables, l: string, rep: string, after: Tables)
    requires l !in groups && rep !in merged.frequency
    requires after.frequency == merged.frequency[rep := Total(t.frequency, Members(groupKey, l))]
    requires Total(merged.frequency, merged.frequency.Keys) == Total(t.frequency, Grouped(groupKey, groups))
    ensures Total(after.frequency, after.frequency.Keys) == Total(t.frequency, Grouped(groupKey, groups + {l}))
  {
    var before := Grouped(groupKey, groups);
    var now := Grouped(groupKey, groups + {l});
    assert now == before + Members(groupKey, l) && before !! Members(groupKey, l);
    SumUnion(before, Members(groupKey, l), (x: string) => if x in t.frequency then t.frequency[x] else 0);
    var keys := merged.frequency.Keys;
    assert after.frequency.Keys == keys + {rep};
    TotalOneMore(after.frequency, keys, rep);
    SumSame(keys, (x: string) => if x in after.frequency then after.frequency[x] else 0,
            (x: string) => if x in merged.frequency then merged.frequency[x] else 0);
  }

  /** `_merge_near_duplicates`: with the lemmas grouped under their leaders, one
      entry per group, and the total frequency kept. */
  method MergeNearDuplicates(keys: seq<string>, t: Tables) returns (merged: Tables, groupKey: map<string, string>)
    requires Keys(keys) && Over((set x | x in keys), t)
    ensures GroupedBy(keys, Leaders(keys), groupKey) && groupKey.Keys == t.frequency.Keys
    ensures MergedFrom(groupKey, t, groupKey.Values, merged)
  {
    groupKey := GroupKeys(keys);
    AllGrouped(keys, t, groupKey);
    merged := MergeGroups(groupKey, t);
  }

  method MergeGroups(groupKey: map<string, string>, t: Tables) returns (merged: Tables)
    requires groupKey.Keys == t.frequency.Keys && Over(t.frequency.Keys, t)
    ensures MergedFrom(groupKey, t, groupKey.Values, merged)
  {
    hide MergedFrom, Over;
    merged := Tables(map[], map[], map[]);
    NothingMerged(groupKey, t);
    var todo := groupKey.Values;
    while todo != {}
      invariant todo <= groupKey.Values && MergedFrom(groupKey, t, groupKey.Values - todo, merged)
      decreases todo
    {
      var l :| l in todo;
      merged := MergeGroup(groupKey, t, groupKey.Values - todo, merged, l);
      assert groupKey.Values - (todo - {l}) == groupKey.Values - todo + {l};
      todo := todo - {l};
    }
    assert groupKey.Values - todo == groupKey.Values;
  }

  /** The entry of one group. */
  method MergeGroup(groupKey: map<string, string>, t: Tables, ghost groups: set<string>, merged: Tables, l: string)
    returns (after: Tables)
    requires MergedFrom(groupKey, t, groups, merged) && l !in groups && l in groupKey.Values
    requires groupKey.Keys == t.frequency.Keys && Over(t.frequency.Keys, t)
    ensures MergedFrom(groupKey, t, groups + {l}, after)
  {
    hide MergedFrom, IdsOfAll, Total, BestOf;
    var first :| first in groupKey && groupKey[first] == l;
    assert first in Members(groupKey, l);
    var rep, total, ids := Reduce(Members(groupKey, l), t);
    IsMember(groupKey, t, l, rep);
    MergedOneMore(groupKey, t, groups, merged, l, rep);
    after := WithEntry(merged, rep, total, ids, t.firstSeen[rep]);
  }

  lemma NothingMerged(groupKey: map<string, string>, t: Tables)
    ensures MergedFrom(groupKey, t, {}, Tables(map[], map[], map[]))
    ensures groupKey.Values - groupKey.Values == {}
  {
    assert Grouped(groupKey, {}) == {};
  }

  lemma AllGrouped(keys: seq<string>, t: Tables, groupKey: map<string, string>)
    requires Keys(keys) && GroupedBy(keys, Leaders(keys), groupKey) && Over((set x | x in keys), t)
    ensures groupKey.Keys == t.frequency.Keys && Over(t.frequency.Keys, t)
  {
    hide NearDuplicate, Blank, Covers, LeaderOf, Leaders, GroupedBy, Keys;
    forall x | true ensures x in groupKey <==> x in keys {
      EachIsGrouped(keys, groupKey, x);
    }
    assert groupKey.Keys == set x | x in keys;
  }

  lemma EachIsGrouped(keys: seq<string>, groupKey: map<string, string>, x: string)
    requires Keys(keys) && GroupedBy(keys, Leaders(keys), groupKey)
    ensures x in groupKey <==> x in keys
  {
    hide NearDuplicate, Blank, Covers, LeaderOf, Leaders;
    LeadersCover(keys);
  }

  /** No occurrence is lost or counted twice. */
  lemma TotalIsKept(groupKey: map<string, string>, t: Tables, merged: Tables)
    requires MergedFrom(groupKey, t, groupKey.Values, merged) && groupKey.Keys == t.frequency.Keys
    ensures Total(merged.frequency, merged.frequency.Keys) == Total(t.frequency, t.frequency.Keys)
  {
    hide Total, Represents;
    assert Grouped(groupKey, groupKey.Values) == t.frequency.Keys;
  }

  /** A member is its leader or close to it, and leads itself if it is a leader. */
  lemma MembersAreClose(keys: seq<string>, groupKey: map<string, string>, x: string)
    requires Keys(keys) && GroupedBy(keys, Leaders(keys), groupKey) && x in keys
    ensures x in groupKey && groupKey[x] in keys && (groupKey[x] == x || NearDuplicate(groupKey[x], x))
    ensures groupKey[x] in groupKey && groupKey[groupKey[x]] == groupKey[x]
  {
    hide NearDuplicate;
    LeadersCover(keys);
    LeaderOfLeader(keys, groupKey[x]);
  }

  /** Leaders of different groups are never close to each other. */
  lemma GroupsAreApart(keys: seq<string>, groupKey: map<string, string>, x: string, y: string)
    requires Keys(keys) && GroupedBy(keys, Leaders(keys), groupKey) && x in groupKey && y in groupKey
    ensures groupKey[x] != groupKey[y] ==>
      groupKey[x] in keys && groupKey[y] in keys && !NearDuplicate(groupKey[x], groupKey[y])
  {
    hide NearDuplicate;
    LeadersCover(keys);
    if groupKey[x] != groupKey[y] {
      LeadersApart(keys, groupKey[x], groupKey[y]);
    }
  }

  /** Members of one group need not be close to each other: between a stem with
      two endings come the stem and the stem with four. */
  lemma MembersNeedNotBeClose(stem: string, e: char, groupKey: map<string, string>)
    requires |stem| >= MIN_SHARED_PREFIX && (forall c :: c in stem ==> !IsSpace(c)) && e in RU_INFLECTION_ENDINGS
    ensures var a, b, c := stem + [e, e], stem, stem + [e, e, e, e];
      && Keys([a, b, c]) && !NearDuplicate(b, c)
      && (GroupedBy([a, b, c], Leaders([a, b, c]), groupKey) ==>
            b in groupKey && c in groupKey && groupKey[b] == a && groupKey[c] == a)
  {
    var a, b, c := stem + [e, e], stem, stem + [e, e, e, e];
    NearIsNotTransitive(stem, e);
    NearSymmetric(b, a);
    hide NearDuplicate, Blank;
    var keys := [a, b, c];
    assert |a| == |b| + 2 && |c| == |b| + 4;
    OneLeader(a, b, c);
    if GroupedBy(keys, Leaders(keys), groupKey) {
      assert b in keys && c in keys;
      assert Covers([a], b) && Covers([a], c);
    }
  }

  lemma OneLeader(a: string, b: string, c: string)
    requires !Blank(a) && !Blank(b) && !Blank(c) && NearDuplicate(a, b) && NearDuplicate(a, c)
    ensures Leaders([a, b, c]) == [a]
  {
    hide NearDuplicate, Blank;
    assert Front([a]) == [] && Front([a, b]) == [a] && Front([a, b, c]) == [a, b];
    var only := [a];
    assert only[0] == a && a in only && Leaders([]) == [] && Leaders(only) == only;
    assert Covers(only, b) && Covers(only, c);
    assert Leaders([a, b]) == only;
  }

  /** A group has exactly one entry. */
  lemma OneEntryPerGroup(groupKey: map<string, string>, t: Tables, merged: Tables, r: string, q: string)
    requires MergedFrom(groupKey, t, groupKey.Values, merged) && r in merged.frequency && q in merged.frequency
    ensures r in groupKey && q in groupKey && (groupKey[r] == groupKey[q] ==> r == q)
  {
    EntryOf(groupKey, t, groupKey.Values, merged, r);
    EntryOf(groupKey, t, groupKey.Values, merged, q);
    hide MergedFrom, Total, IdsOfAll;
    if groupKey[r] == groupKey[q] {
      OneBest(t.frequency, r, q, Members(groupKey, groupKey[r]));
    }
  }

  lemma OneBest(frequency: map<string, nat>, r: string, q: string, members: set<string>)
    requires BestOf(frequency, r, members) && BestOf(frequency, q, members)
    ensures r == q
  {
    BeforeTotal(r, q);
  }

  lemma EntryFor(groupKey: map<string, string>, t: Tables, merged: Tables, x: string) returns (r: string)
    requires MergedFrom(groupKey, t, groupKey.Values, merged) && x in groupKey
    ensures r in merged.frequency && r in groupKey && groupKey[r] == groupKey[x]
  {
    hide Represents, Total;
    var l := groupKey[x];
    assert l in groupKey.Values;
    r :| r in merged.frequency && r in groupKey && groupKey[r] == l;
  }

  /** No chunk is lost. */
  lemma NoChunkLost(groupKey: map<string, string>, t: Tables, merged: Tables)
    requires MergedFrom(groupKey, t, groupKey.Values, merged)
    requires groupKey.Keys == t.frequency.Keys && Over(t.frequency.Keys, t)
    ensures IdsOfAll(merged.chunkIds, merged.chunkIds.Keys) == IdsOfAll(t.chunkIds, t.chunkIds.Keys)
  {
    hide Total, BestOf;
    forall id | id in IdsOfAll(merged.chunkIds, merged.chunkIds.Keys) ensures id in IdsOfAll(t.chunkIds, t.chunkIds.Keys) {
      var r :| r in merged.chunkIds && id in merged.chunkIds[r];
      EntryOf(groupKey, t, groupKey.Values, merged, r);
      var x :| x in Members(groupKey, groupKey[r]) && x in t.chunkIds && id in t.chunkIds[x];
    }
    forall id | id in IdsOfAll(t.chunkIds, t.chunkIds.Keys) ensures id in IdsOfAll(merged.chunkIds, merged.chunkIds.Keys) {
      var x :| x in t.chunkIds && id in t.chunkIds[x];
      var r := EntryFor(groupKey, t, merged, x);
      EntryOf(groupKey, t, groupKey.Values, merged, r);
      assert x in Members(groupKey, groupKey[r]) && id in merged.chunkIds[r];
    }
  }

  // ----- Collecting candidates -----

  const MIN_LEMMA_LEN: nat := 2
  const DOTTED_INITIAL_LEN: nat := 2

  /** What the extractor found: a surface form, its lemma in lower case, and a label. */
  datatype Candidate = Candidate(text: string, lowered: string, kind: string)

  /** The candidates of one chunk. */
  datatype Found = Found(chunkId: string, candidates: seq<Candidate>)

  /** A candidate that counts, with its lemma cleaned. */
  datatype Occurrence = Occurrence(term: string, sighting: Sighting)

  /** `_is_noise_lemma`. */
  predicate IsNoise(term: string) {
    exists w :: w in Words(term) && |w| == DOTTED_INITIAL_LEN && w[|w| - 1] == '.'
  }

  predicate Counts(stopwords: set<string>, term: string) {
    |term| >= MIN_LEMMA_LEN && term !in stopwords && !IsNoise(term)
  }

  function OccurrencesIn(stopwords: set<string>, chunkId: string, candidates: seq<Candidate>): seq<Occurrence> {
    if candidates == [] then []
    else
      var c := Last(candidates);
      OccurrencesIn(stopwords, chunkId, Front(candidates)) +
        if Counts(stopwords, Strip(c.lowered)) then [Occurrence(Strip(c.lowered), Sighting(c.text, c.kind, chunkId))] else []
  }

  /** All candidates that count, in order. */
  function Occurrences(stopwords: set<string>, sources: seq<Found>): seq<Occurrence> {
    if sources == [] then []
    else
      var last := Last(sources);
      Occurrences(stopwords, Front(sources)) + OccurrencesIn(stopwords, last.chunkId, last.candidates)
  }

  /** A candidate counts if its stripped lemma has at least two characters, is no
      stopword and holds no dotted initial (a word of two characters, the second a dot). */
  predicate Countable(stopwords: set<string>, c: Candidate, term: string) {
    && term == Strip(c.lowered) && |term| >= 2 && term !in stopwords
    && forall w :: w in Words(term) && |w| == 2 ==> w[1] != '.'
  }

  lemma {:induction false} FoundIn(stopwords: set<string>, chunkId: string, candidates: seq<Candidate>, o: Occurrence)
    ensures o in OccurrencesIn(stopwords, chunkId, candidates) <==>
      exists c :: c in candidates && Countable(stopwords, c, o.term) && o.sighting == Sighting(c.text, c.kind, chunkId)
  {
    if candidates != [] {
      assert candidates == Front(candidates) + [Last(candidates)];
      FoundIn(stopwords, chunkId, Front(candidates), o);
    }
  }

  /** The occurrences are exactly the candidates that count, each with its lemma, its
      surface form, its label and its chunk. */
  lemma {:induction false} OccurrencesAre(stopwords: set<string>, sources: seq<Found>, o: Occurrence)
    ensures o in Occurrences(stopwords, sources) <==>
      exists f, c :: f in sources && c in f.candidates && Countable(stopwords, c, o.term) &&
        o.sighting == Sighting(c.text, c.kind, f.chunkId)
  {
    if sources != [] {
      assert sources == Front(sources) + [Last(sources)];
      hide Countable;
      OccurrencesAre(stopwords, Front(sources), o);
      FoundIn(stopwords, Last(sources).chunkId, Last(sources).candidates, o);
    }
  }

  function Count(occs: seq<Occurrence>, x: string): nat {
    if occs == [] then 0 else Count(Front(occs), x) + if Last(occs).term == x then 1 else 0
  }

  function ChunksWith(occs: seq<Occurrence>, x: string): set<string> {
    set o | o in occs && o.term == x :: o.sighting.chunkId
  }

  predicate Occurs(occs: seq<Occurrence>, x: string) {
    exists o :: o in occs && o.term == x
  }

  function FirstOf(occs: seq<Occurrence>, x: string): Sighting
    requires Occurs(occs, x)
  {
    assert occs == Front(occs) + [Last(occs)];
    if Occurs(Front(occs), x) then FirstOf(Front(occs), x) else Last(occs).sighting
  }

  /** The tables say how often, where and where first each lemma occurs. */
  ghost predicate Tabulates(occs: seq<Occurrence>, keys: seq<string>, t: Tables) {
    && Keys(keys) && Over((set x | x in keys), t)
    && (forall x :: x in keys <==> Occurs(occs, x))
    && forall x :: x in keys ==> Row(occs, t, x)
  }

  ghost predicate Row(occs: seq<Occurrence>, t: Tables, x: string) {
    && x in t.frequency && x in t.chunkIds && x in t.firstSeen
    && t.frequency[x] == Count(occs, x) && t.chunkIds[x] == ChunksWith(occs, x)
    && Occurs(occs, x) && t.firstSeen[x] == FirstOf(occs, x)
  }

  /** The body of the aggregation loop. */
  function Noted(t: Tables, o: Occurrence): Tables {
    var x := o.term;
    Tables(t.frequency[x := (if x in t.frequency then t.frequency[x] else 0) + 1],
           t.chunkIds[x := (if x in t.chunkIds then t.chunkIds[x] else {}) + {o.sighting.chunkId}],
           if x in t.firstSeen then t.firstSeen else t.firstSeen[x := o.sighting])
  }

  function WithKey(keys: seq<string>, x: string): seq<string> {
    if x in keys then keys else keys + [x]
  }

  lemma {:induction false} CountNone(occs: seq<Occurrence>, x: string)
    requires !Occurs(occs, x)
    ensures Count(occs, x) == 0
  {
    if occs != [] {
      assert occs == Front(occs) + [Last(occs)] && Last(occs) in occs;
      assert forall o :: o in Front(occs) ==> o in occs;
      CountNone(Front(occs), x);
    }
  }

  /** The figures of a lemma, told from the occurrences alone: how many there are, and
      which is the first. */
  lemma {:induction false} FrequencyIsCount(occs: seq<Occurrence>, x: string)
    ensures Count(occs, x) == |OccursAt(occs, x)|
  {
    if occs != [] {
      var n := |occs| - 1;
      FrequencyIsCount(occs[..n], x);
      OccursAtNext(occs, x);
    }
  }

  ghost function OccursAt(occs: seq<Occurrence>, x: string): set<int> {
    set i | 0 <= i < |occs| && occs[i].term == x
  }

  lemma OccursAtNext(occs: seq<Occurrence>, x: string)
    requires occs != []
    ensures var n := |occs| - 1;
      OccursAt(occs, x) == OccursAt(occs[..n], x) + (if occs[n].term == x then {n} else {}) && n !in OccursAt(occs[..n], x)
  {
    var n := |occs| - 1;
    assert forall i :: 0 <= i < n ==> occs[..n][i] == occs[i];
  }

  lemma {:induction false} FirstSeenIsFirst(occs: seq<Occurrence>, x: string, i: nat)
    requires i < |occs| && occs[i].term == x && forall j :: 0 <= j < i ==> occs[j].term != x
    ensures Occurs(occs, x) && FirstOf(occs, x) == occs[i].sighting
  {
    var n := |occs| - 1;
    assert occs[i] in occs;
    if i < n {
      assert occs[..n][i] == occs[i];
      FirstSeenIsFirst(occs[..n], x, i);
    } else {
      assert forall o :: o in occs[..n] ==> o.term != x;
    }
  }

  lemma OccursNext(occs: seq<Occurrence>, o: Occurrence, x: string)
    ensures Occurs(occs + [o], x) <==> Occurs(occs, x) || o.term == x
    ensures Count(occs + [o], x) == Count(occs, x) + if o.term == x then 1 else 0
    ensures ChunksWith(occs + [o], x) == ChunksWith(occs, x) + if o.term == x then {o.sighting.chunkId} else {}
    ensures Occurs(occs + [o], x) ==>
      FirstOf(occs + [o], x) == if Occurs(occs, x) then FirstOf(occs, x) else o.sighting
  {
    var more := occs + [o];
    assert Front(more) == occs && Last(more) == o && o in more && forall p :: p in occs ==> p in more;
  }

  lemma TabulatesNext(occs: seq<Occurrence>, keys: seq<string>, t: Tables, o: Occurrence)
    requires Tabulates(occs, keys, t) && !Blank(o.term)
    ensures Tabulates(occs + [o], WithKey(keys, o.term), Noted(t, o))
  {
    var after, now := WithKey(keys, o.term), Noted(t, o);
    hide Blank, Count, FirstOf, Occurs, ChunksWith, Row;
    KeysNext(keys, t, o);
    forall x | true
      ensures x in after <==> Occurs(occs + [o], x)
      ensures x in after ==> Row(occs + [o], now, x)
    {
      OccursNext(occs, o, x);
      if x in after {
        RowNext(occs, keys, t, o, x);
      }
    }
  }

  lemma KeysNext(keys: seq<string>, t: Tables, o: Occurrence)
    requires Keys(keys) && Over((set x | x in keys), t) && !Blank(o.term)
    ensures Keys(WithKey(keys, o.term)) && Over((set x | x in WithKey(keys, o.term)), Noted(t, o))
    ensures forall x :: x in WithKey(keys, o.term) <==> x in keys || x == o.term
  {
    hide Blank, Over;
    var after := WithKey(keys, o.term);
    assert forall x :: x in after <==> x in keys || x == o.term;
    TablesNext((set x | x in keys), t, o);
    assert (set x | x in after) == (set x | x in keys) + {o.term};
  }

  lemma TablesNext(lemmas: set<string>, t: Tables, o: Occurrence)
    requires Over(lemmas, t)
    ensures Over(lemmas + {o.term}, Noted(t, o))
  {
  }

  lemma RowNext(occs: seq<Occurrence>, keys: seq<string>, t: Tables, o: Occurrence, x: string)
    requires Tabulates(occs, keys, t) && (x in keys || x == o.term)
    ensures Row(occs + [o], Noted(t, o), x)
  {
    hide Blank, Count, FirstOf, Occurs, ChunksWith;
    OccursNext(occs, o, x);
    if x in keys {
      assert Row(occs, t, x);
    } else {
      CountNone(occs, x);
      NoChunks(occs, x);
    }
  }

  lemma NoChunks(occs: seq<Occurrence>, x: string)
    requires !Occurs(occs, x)
    ensures ChunksWith(occs, x) == {}
  {
  }

  /** The aggregation loop of `_extract_terms`. */
  method Aggregate(sources: seq<Found>, stopwords: set<string>) returns (keys: seq<string>, t: Tables)
    ensures Tabulates(Occurrences(stopwords, sources), keys, t)
  {
    keys, t := [], Tables(map[], map[], map[]);
    for i := 0 to |sources|
      invariant Tabulates(Occurrences(stopwords, sources[..i]), keys, t)
    {
      ghost var before := Occurrences(stopwords, sources[..i]);
      var found := sources[i];
      assert Front(sources[..i + 1]) == sources[..i];
      assert before + [] == before;
      for j := 0 to |found.candidates|
        invariant Tabulates(before + OccurrencesIn(stopwords, found.chunkId, found.candidates[..j]), keys, t)
      {
        var c := found.candidates[j];
        assert Front(found.candidates[..j + 1]) == found.candidates[..j];
        keys, t := NoteCandidate(stopwords, found.chunkId, c, keys, t,
                                 before, OccurrencesIn(stopwords, found.chunkId, found.candidates[..j]));
      }
      assert found.candidates[..|found.candidates|] == found.candidates;
    }
    assert sources[..|sources|] == sources;
  }

  /** One candidate. */
  method NoteCandidate(stopwords: set<string>, chunkId: string, c: Candidate, keys: seq<string>, t: Tables,
                       ghost before: seq<Occurrence>, ghost these: seq<Occurrence>)
    returns (after: seq<string>, now: Tables)
    requires Tabulates(before + these, keys, t)
    ensures Tabulates(before + (these + if Counts(stopwords, Strip(c.lowered)) then
        [Occurrence(Strip(c.lowered), Sighting(c.text, c.kind, chunkId))] else []), after, now)
  {
    hide Tabulates, IsNoise;
    after, now := keys, t;
    var cleaned := Strip(c.lowered);
    if !Counts(stopwords, cleaned) {
      assert these + [] == these;
      return;
    }
    var o := Occurrence(cleaned, Sighting(c.text, c.kind, chunkId));
    assert cleaned[0] in cleaned;
    SomeWord("", cleaned);
    TabulatesNext(before + these, keys, t, o);
    assert before + (these + [o]) == before + these + [o];
    after, now := WithKey(keys, cleaned), Noted(t, o);
  }

  /** Frequencies add up to the number of candidates that count. */
  lemma {:induction false} FrequenciesAddUp(occs: seq<Occurrence>, lemmas: set<string>)
    requires forall o :: o in occs ==> o.term in lemmas
    ensures Sum(lemmas, (x: string) => Count(occs, x)) == |occs|
  {
    if occs == [] {
      SumBound(lemmas, (x: string) => Count(occs, x), 0);
    } else {
      var o := Last(occs);
      assert occs == Front(occs) + [o] && o in occs;
      FrequenciesAddUp(Front(occs), lemmas);
      SumChange(lemmas, (x: string) => Count(Front(occs), x), (x: string) => Count(occs, x), o.term);
    }
  }

  /** From candidates to merged terms no occurrence is lost or counted twice. */
  lemma OccurrencesAreConserved(occs: seq<Occurrence>, keys: seq<string>, t: Tables, merged: Tables, groupKey: map<string, string>)
    requires Tabulates(occs, keys, t)
    requires groupKey.Keys == t.frequency.Keys && MergedFrom(groupKey, t, groupKey.Values, merged)
    ensures Total(merged.frequency, merged.frequency.Keys) == |occs|
  {
    TotalIsKept(groupKey, t, merged);
    TableAddsUp(occs, keys, t);
  }

  lemma TableAddsUp(occs: seq<Occurrence>, keys: seq<string>, t: Tables)
    requires Tabulates(occs, keys, t)
    ensures Total(t.frequency, t.frequency.Keys) == |occs|
  {
    hide FirstOf, Blank;
    assert forall o :: o in occs ==> Occurs(occs, o.term);
    FrequenciesAddUp(occs, t.frequency.Keys);
    SumSame(t.frequency.Keys, (x: string) => if x in t.frequency then t.frequency[x] else 0, (x: string) => Count(occs, x));
  }
}
