/** Choice of the language pipeline and batched extraction
    (src/adapters/spacy_ner.py). Loading a model succeeds or fails by its name
    alone. */
module Extraction {
  import opened Basics

  datatype Language = Ru | En

  predicate IsCyrillic(c: char) {
    '\U{400}' <= c <= '\U{4FF}'
  }

  predicate IsLatin(c: char) {
    'A' <= c <= 'Z' || 'a' <= c <= 'z'
  }

  function CountWhere(p: char -> bool, text: string): nat {
    if text == "" then 0 else CountWhere(p, text[..|text| - 1]) + if p(text[|text| - 1]) then 1 else 0
  }

  /** English needs strictly more Latin than Cyrillic letters. */
  function LanguageOf(text: string): Language {
    if CountWhere(IsLatin, text) > CountWhere(IsCyrillic, text) then En else Ru
  }

  ghost function PositionsOf(p: char -> bool, text: string): set<int> {
    set i | 0 <= i < |text| && p(text[i])
  }

  lemma {:induction false} CountsPositions(p: char -> bool, text: string)
    ensures CountWhere(p, text) == |PositionsOf(p, text)|
  {
    if text != "" {
      var n := |text| - 1;
      CountsPositions(p, text[..n]);
      var was := PositionsOf(p, text[..n]);
      assert PositionsOf(p, text) == if p(text[n]) then was + {n} else was;
    }
  }

  /** The positions of Latin letters, and of letters of the Cyrillic block. */
  ghost function LatinAt(text: string): set<int> {
    set i | 0 <= i < |text| && ('A' <= text[i] <= 'Z' || 'a' <= text[i] <= 'z')
  }

  ghost function CyrillicAt(text: string): set<int> {
    set i | 0 <= i < |text| && '\U{400}' <= text[i] <= '\U{4FF}'
  }

  /** A text is English if it has more Latin letters than Cyrillic ones, else Russian. */
  lemma LanguageByLetters(text: string)
    ensures LanguageOf(text) == En <==> |LatinAt(text)| > |CyrillicAt(text)|
  {
    CountsPositions(IsLatin, text);
    CountsPositions(IsCyrillic, text);
    assert LatinAt(text) == PositionsOf(IsLatin, text);
    assert CyrillicAt(text) == PositionsOf(IsCyrillic, text);
  }

  /** `_select_language`. */
  method SelectLanguage(text: string) returns (language: Language)
    ensures language == LanguageOf(text)
    ensures language == if |LatinAt(text)| > |CyrillicAt(text)| then En else Ru
  {
    LanguageByLetters(text);
    var latin, cyrillic := 0, 0;
    for i := 0 to |text|
      invariant latin == CountWhere(IsLatin, text[..i]) && cyrillic == CountWhere(IsCyrillic, text[..i])
    {
      assert text[..i + 1][..i] == text[..i];
      if IsLatin(text[i]) {
        latin := latin + 1;
      } else if IsCyrillic(text[i]) {
        cyrillic := cyrillic + 1;
      }
    }
    assert text[..|text|] == text;
    language := if latin > cyrillic then En else Ru;
  }

  /** The texts that some language claims, by position: ascending, and complete. */
  ghost predicate Claims(texts: seq<string>, indices: seq<nat>, language: Language) {
    && (forall a, b :: 0 <= a < b < |indices| ==> indices[a] < indices[b])
    && (forall i :: i in indices <==> 0 <= i < |texts| && LanguageOf(texts[i]) == language)
  }

  function AllSome<T>(answers: seq<Option<T>>): Option<seq<T>> {
    if answers == [] then Some([])
    else
      var n := |answers| - 1;
      var before := AllSome(answers[..n]);
      if before.Some? && answers[n].Some? then Some(before.value + [answers[n].value]) else None
  }

  lemma {:induction false} AllSomeAt<T>(answers: seq<Option<T>>)
    ensures AllSome(answers).Some? <==> forall i :: 0 <= i < |answers| ==> answers[i].Some?
    ensures AllSome(answers).Some? ==> |AllSome(answers).value| == |answers|
    ensures forall i :: AllSome(answers).Some? && 0 <= i < |answers| ==> answers[i] == Some(AllSome(answers).value[i])
  {
    if answers != [] {
      var n := |answers| - 1;
      AllSomeAt(answers[..n]);
      assert forall i :: 0 <= i < n ==> answers[..n][i] == answers[i];
    }
  }

  /** A loaded pipeline. */
  datatype Pipeline = Pipeline(model: string)

  class SpacyNerAdapter<Terms(==)> {
    const modelName: string
    const enModelName: string
    const installed: set<string>
    const run: (Pipeline, string) -> Terms
    const pipe: (Pipeline, seq<string>) -> seq<Terms>
    var pipelines: map<Language, Pipeline>
    var byModel: map<string, Pipeline>

    function Preferred(language: Language): string {
      if language == En then enModelName else modelName
    }

    function Fallback(language: Language): string {
      if language == En then modelName else enModelName
    }

    /** The pipeline a language ends up with, whatever has been loaded before:
        the preferred model if there is one, else the other, else an error. */
    function PipelineFor(language: Language): Option<Pipeline> {
      if Preferred(language) in installed then Some(Pipeline(Preferred(language)))
      else if Fallback(language) in installed then Some(Pipeline(Fallback(language)))
      else None
    }

    /** Extraction from one text. */
    function Extracted(text: string): Option<Terms> {
      match PipelineFor(LanguageOf(text))
      case Some(p) => Some(run(p, text))
      case None => None
    }

    /** The caches only hold what loading would give. */
    ghost predicate Valid()
      reads this
    {
      && (forall m :: m in byModel ==> m in installed && byModel[m] == Pipeline(m))
      && (forall l :: l in pipelines ==> PipelineFor(l) == Some(pipelines[l]))
    }

    constructor (modelName: string, enModelName: string, installed: set<string>,
                 run: (Pipeline, string) -> Terms, pipe: (Pipeline, seq<string>) -> seq<Terms>)
      ensures Valid() && pipelines == map[] && byModel == map[]
      ensures this.modelName == modelName && this.enModelName == enModelName
      ensures this.installed == installed && this.run == run && this.pipe == pipe
    {
      this.modelName, this.enModelName, this.installed := modelName, enModelName, installed;
      this.run, this.pipe := run, pipe;
      pipelines, byModel := map[], map[];
    }

    /** `spacy.load`, with the cache by model name; None is an `OSError`. */
    method LoadByName(model: string) returns (p: Option<Pipeline>)
      requires Valid()
      modifies this`byModel
      ensures Valid() && p == if model in installed then Some(Pipeline(model)) else None
    {
      if model in byModel {
        return Some(byModel[model]);
      }
      if model !in installed {
        return None;
      }
      byModel := byModel[model := Pipeline(model)];
      p := Some(byModel[model]);
    }

    /** `_load_model`. */
    method LoadModel(preferred: string, fallback: string) returns (p: Option<Pipeline>)
      requires Valid()
      modifies this`byModel
      ensures Valid()
      ensures p == if preferred in installed then Some(Pipeline(preferred))
                   else if fallback in installed then Some(Pipeline(fallback)) else None
    {
      p := LoadByName(preferred);
      if p.None? && fallback != preferred {
        p := LoadByName(fallback);
      }
    }

    /** `_ensure_nlp`. */
    method EnsureNlp(language: Language) returns (p: Option<Pipeline>)
      requires Valid()
      modifies this
      ensures Valid() && p == PipelineFor(language)
      ensures p == var (first, second) := if language == En then (enModelName, modelName) else (modelName, enModelName);
        if first in installed then Some(Pipeline(first)) else if second in installed then Some(Pipeline(second)) else None
    {
      if language in pipelines {
        return Some(pipelines[language]);
      }
      p := LoadModel(Preferred(language), Fallback(language));
      if p.Some? {
        pipelines := pipelines[language := p.value];
      }
    }

    /** `extract`. */
    method Extract(text: string) returns (terms: Option<Terms>)
      requires Valid()
      modifies this
      ensures Valid() && terms == Extracted(text)
    {
      var language := SelectLanguage(text);
      var p := EnsureNlp(language);
      if p.None? {
        return None;
      }
      terms := Some(run(p.value, text));
    }

    /** The grouping loop of `extract_many`. */
    method GroupByLanguage(texts: seq<string>) returns (groups: map<Language, seq<nat>>)
      ensures forall l :: l in groups ==> groups[l] != [] && Claims(texts, groups[l], l)
      ensures forall i :: 0 <= i < |texts| ==> LanguageOf(texts[i]) in groups
    {
      groups := map[];
      for i := 0 to |texts|
        invariant forall l :: l in groups ==> groups[l] != [] && Claims(texts[..i], groups[l], l)
        invariant forall k :: 0 <= k < i ==> LanguageOf(texts[k]) in groups
      {
        var l := SelectLanguage(texts[i]);
        ghost var before := groups;
        groups := groups[l := (if l in groups then groups[l] else []) + [i]];
        ClaimsNext(texts, i, l, if l in before then before[l] else []);
        forall m | m in groups && m != l ensures groups[m] != [] && Claims(texts[..i + 1], groups[m], m) {
          ClaimsOther(texts, i, m, before[m]);
        }
      }
      assert texts[..|texts|] == texts;
    }

    static lemma ClaimsNext(texts: seq<string>, i: nat, l: Language, indices: seq<nat>)
      requires i < |texts| && LanguageOf(texts[i]) == l
      requires Claims(texts[..i], indices, l)
      ensures Claims(texts[..i + 1], indices + [i], l)
    {
      var more := indices + [i];
      assert more[|indices|] == i;
      assert forall a :: 0 <= a < |indices| ==> indices[a] in indices && more[a] == indices[a];
      assert forall x :: x in more <==> x in indices || x == i;
    }

    static lemma ClaimsOther(texts: seq<string>, i: nat, l: Language, indices: seq<nat>)
      requires i < |texts| && LanguageOf(texts[i]) != l && Claims(texts[..i], indices, l)
      ensures Claims(texts[..i + 1], indices, l)
    {
    }

    /** The scatter loop of `extract_many`: the k-th document of a group goes to
        its k-th position, and no other slot changes. */
    method Scatter(indices: seq<nat>, docs: seq<Terms>, slots: seq<Option<Terms>>) returns (after: seq<Option<Terms>>)
      requires |docs| == |indices| && forall k :: 0 <= k < |indices| ==> indices[k] < |slots|
      requires forall a, b :: 0 <= a < b < |indices| ==> indices[a] != indices[b]
      ensures |after| == |slots|
      ensures forall k :: 0 <= k < |indices| ==> after[indices[k]] == Some(docs[k])
      ensures forall i :: 0 <= i < |slots| && i !in indices ==> after[i] == slots[i]
    {
      after := slots;
      for k := 0 to |indices|
        invariant |after| == |slots|
        invariant forall j :: 0 <= j < k ==> after[indices[j]] == Some(docs[j])
        invariant forall i :: 0 <= i < |slots| && i !in indices ==> after[i] == slots[i]
      {
        assert indices[k] in indices;
        after := after[indices[k] := Some(docs[k])];
      }
    }

    function TextsAt(texts: seq<string>, indices: seq<nat>): seq<string>
      requires forall i :: i in indices ==> i < |texts|
    {
      seq(|indices|, k requires 0 <= k < |indices| => assert indices[k] in indices; texts[indices[k]])
    }

    /** A batch gives what the pipeline would give for each of its texts alone. */
    ghost predicate PipeIsPointwise() {
      forall p, batch :: |pipe(p, batch)| == |batch| && forall k :: 0 <= k < |batch| ==> pipe(p, batch)[k] == run(p, batch[k])
    }

    /** One group: its texts go through the pipeline in one batch. None is the
        `ValueError` of a batch that gives too few or too many documents. */
    method ExtractGroup(texts: seq<string>, l: Language, indices: seq<nat>, p: Pipeline, slots: seq<Option<Terms>>)
      returns (after: Option<seq<Option<Terms>>>)
      requires Claims(texts, indices, l) && PipelineFor(l) == Some(p) && |slots| == |texts|
      ensures after.Some? ==> |after.value| == |texts|
      ensures PipeIsPointwise() ==> after.Some?
      ensures PipeIsPointwise() ==> forall i :: 0 <= i < |texts| ==>
        after.value[i] == if LanguageOf(texts[i]) == l then Extracted(texts[i]) else slots[i]
    {
      var batch := TextsAt(texts, indices);
      var docs := pipe(p, batch);
      if |docs| != |indices| {
        return None;
      }
      assert forall k :: 0 <= k < |indices| ==> indices[k] in indices;
      var filled := Scatter(indices, docs, slots);
      after := Some(filled);
      if PipeIsPointwise() {
        assert forall k :: 0 <= k < |batch| ==> docs[k] == run(p, batch[k]);
        forall i | 0 <= i < |texts| && LanguageOf(texts[i]) == l ensures filled[i] == Extracted(texts[i]) {
          var k :| 0 <= k < |indices| && indices[k] == i;
          assert batch[k] == texts[i];
        }
      }
    }

    /** `extract_many`: given a pointwise pipeline, one batch per language gives
        what extraction from each text alone would give, or an error if any of
        those would. */
    method ExtractMany(texts: seq<string>) returns (terms: Option<seq<Terms>>)
      requires Valid()
      modifies this
      ensures Valid()
      ensures PipeIsPointwise() ==> terms == AllSome(Each(texts))
    {
      hide AllSome, Extracted, LanguageOf, Claims, PipelineFor, PipeIsPointwise;
      var groups := GroupByLanguage(texts);
      var slots := seq(|texts|, _ => None);
      var todo := groups.Keys;
      while todo != {}
        invariant Valid() && |slots| == |texts| && todo <= groups.Keys
        invariant PipeIsPointwise() ==>
          forall i :: 0 <= i < |texts| && LanguageOf(texts[i]) !in todo ==> slots[i] == Extracted(texts[i])
        decreases todo
      {
        var l :| l in todo;
        var p := EnsureNlp(l);
        if p.None? {
          OneFails(texts, groups[l], l);
          return None;
        }
        var after := ExtractGroup(texts, l, groups[l], p.value, slots);
        if after.None? {
          return None;
        }
        slots := after.value;
        todo := todo - {l};
      }
      if PipeIsPointwise() {
        assert slots == Each(texts);
      }
      terms := AllSome(slots);
    }

    lemma OneFails(texts: seq<string>, indices: seq<nat>, l: Language)
      requires indices != [] && Claims(texts, indices, l) && PipelineFor(l).None?
      ensures AllSome(Each(texts)).None?
    {
      assert indices[0] in indices;
      assert Each(texts)[indices[0]] == Extracted(texts[indices[0]]) == None;
      AllSomeAt(Each(texts));
    }

    function Each(texts: seq<string>): seq<Option<Terms>> {
      seq(|texts|, i requires 0 <= i < |texts| => Extracted(texts[i]))
    }
  }
}
