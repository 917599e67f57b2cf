/** Result rows and how agent contents map to them and back
    (src/db/result_mapping.py). Values of nullable columns are kept as JSON. */
module Mapping {
  import opened Basics
  import opened Texts

  datatype SummaryRow = SummaryRow(
    id: string, taskId: string, introduction: Json, keyPoints: Json, conclusions: Json, sourceChunkIds: Json)

  datatype TermRow = TermRow(
    id: string, taskId: string, chunkId: Json, term: string, stem: Json, frequency: Json, category: Json)

  datatype QuizRow = QuizRow(id: string, taskId: string, questions: seq<Json>, difficulty: Json)

  datatype CitationRow = CitationRow(
    id: string, taskId: string, title: string, authors: Json, year: Json, url: Json, relevance: Json)

  datatype ChunkRow = ChunkRow(
    id: string, taskId: string, documentId: string, sourceType: string, content: string, index: int,
    confidence: Json, meta: Option<Content>)

  // ----- Values -----

  /** Python's truth value of a decoded value. */
  predicate Truthy(j: Json) {
    match j
    case JNull => false
    case JBool(b) => b
    case JNum(x) => x != 0.0
    case JStr(s) => s != ""
    case JList(items) => items != []
    case JObj(fields) => fields != map[]
  }

  function OrElse(j: Json, other: Json): Json {
    if Truthy(j) then j else other
  }

  /** `int(value)`; None is an exception, also for strings of digits. */
  function IntOf(j: Json): Option<int> {
    match j
    case JNum(x) => Some(if x >= 0.0 then x.Floor else -((-x).Floor))
    case JBool(b) => Some(if b then 1 else 0)
    case _ => None
  }

  // ----- Summaries -----

  function SummaryId(taskId: string, content: Content): string {
    Str(OrElse(ValueAt(content, "summary_id"), JStr("sum-" + taskId)))
  }

  /** The text of the last section of a type; null if there is none. */
  function SectionText(sections: seq<Json>, kind: string): Json {
    if sections == [] then JNull
    else
      var last := sections[|sections| - 1];
      if last.JObj? && Str(ValueAt(last.fields, "type")) == kind then ValueAt(last.fields, "text")
      else SectionText(sections[..|sections| - 1], kind)
  }

  /** The items of a list; any other value has none. */
  function Items(j: Json): seq<Json> {
    if j.JList? then j.items else []
  }

  function SummaryRowOf(taskId: string, content: Content): SummaryRow {
    var sections := Items(ValueAt(content, "sections"));
    SummaryRow(SummaryId(taskId, content), taskId, SectionText(sections, "introduction"),
               SectionText(sections, "thesis"), SectionText(sections, "conclusion"),
               ValueAt(content, "source_chunk_ids"))
  }

  /** `summary_row`. */
  method MakeSummaryRow(taskId: string, content: Content) returns (row: SummaryRow)
    ensures row == SummaryRowOf(taskId, content)
  {
    var introduction, keyPoints, conclusions := JNull, JNull, JNull;
    var sections := Items(ValueAt(content, "sections"));
    for i := 0 to |sections|
      invariant introduction == SectionText(sections[..i], "introduction")
      invariant keyPoints == SectionText(sections[..i], "thesis")
      invariant conclusions == SectionText(sections[..i], "conclusion")
    {
      assert sections[..i + 1][..i] == sections[..i];
      if sections[i].JObj? {
        var kind, text := Str(ValueAt(sections[i].fields, "type")), ValueAt(sections[i].fields, "text");
        if kind == "introduction" {
          introduction := text;
        } else if kind == "thesis" {
          keyPoints := text;
        } else if kind == "conclusion" {
          conclusions := text;
        }
      }
    }
    assert sections[..|sections|] == sections;
    row := SummaryRow(SummaryId(taskId, content), taskId, introduction, keyPoints, conclusions,
                      ValueAt(content, "source_chunk_ids"));
  }

  function Section(kind: string, text: Json): Json {
    JObj(map["type" := JStr(kind), "text" := text])
  }

  function SectionIfAny(kind: string, text: Json): seq<Json> {
    if text.JNull? then [] else [Section(kind, text)]
  }

  /** `content_from_summary_row`. */
  function SummaryContent(row: SummaryRow): Content {
    map["summary_id" := JStr(row.id),
        "sections" := JList(SectionIfAny("introduction", row.introduction) + SectionIfAny("thesis", row.keyPoints) +
                            SectionIfAny("conclusion", row.conclusions)),
        "source_chunk_ids" := OrElse(row.sourceChunkIds, JList([]))]
  }

  /** A summary as the agent makes it. */
  function MadeSummary(taskId: string, introduction: string, thesis: string, conclusion: string, ids: seq<Json>): Content {
    map["summary_id" := JStr("sum-" + taskId),
        "sections" := JList([Section("introduction", JStr(introduction)), Section("thesis", JStr(thesis)),
                             Section("conclusion", JStr(conclusion))]),
        "source_chunk_ids" := JList(ids)]
  }

  lemma SummaryRoundTrip(taskId: string, introduction: string, thesis: string, conclusion: string, ids: seq<Json>)
    ensures var content := MadeSummary(taskId, introduction, thesis, conclusion, ids);
      SummaryContent(SummaryRowOf(taskId, content)) == content
  {
    var a, b, c := Section("introduction", JStr(introduction)), Section("thesis", JStr(thesis)),
                   Section("conclusion", JStr(conclusion));
    ThreeSections(a, b, c);
    var row := SummaryRowOf(taskId, MadeSummary(taskId, introduction, thesis, conclusion, ids));
    assert row.introduction == JStr(introduction) && row.keyPoints == JStr(thesis) && row.conclusions == JStr(conclusion);
    assert [a] + [b] + [c] == [a, b, c];
    assert row.id == "sum-" + taskId;
    assert OrElse(JList(ids), JList([])) == JList(ids);
  }

  lemma DistinctKinds()
    ensures "introduction" != "thesis" && "thesis" != "conclusion" && "introduction" != "conclusion"
  {
    assert "introduction"[0] != "thesis"[0] && "thesis"[0] != "conclusion"[0] && "introduction"[0] != "conclusion"[0];
  }

  lemma ThreeSections(a: Json, b: Json, c: Json)
    requires a.JObj? && b.JObj? && c.JObj?
    requires Str(ValueAt(a.fields, "type")) == "introduction"
    requires Str(ValueAt(b.fields, "type")) == "thesis"
    requires Str(ValueAt(c.fields, "type")) == "conclusion"
    ensures SectionText([a, b, c], "introduction") == ValueAt(a.fields, "text")
    ensures SectionText([a, b, c], "thesis") == ValueAt(b.fields, "text")
    ensures SectionText([a, b, c], "conclusion") == ValueAt(c.fields, "text")
  {
    DistinctKinds();
    assert [a, b, c][..2] == [a, b] && [a, b][..1] == [a];
    assert SectionText([a], "introduction") == ValueAt(a.fields, "text");
    assert SectionText([a, b], "introduction") == SectionText([a], "introduction");
  }

  lemma {:induction false} LastSection(sections: seq<Json>, kind: string, i: nat)
    requires i < |sections| && sections[i].JObj? && Str(ValueAt(sections[i].fields, "type")) == kind
    requires forall j :: i < j < |sections| && sections[j].JObj? ==> Str(ValueAt(sections[j].fields, "type")) != kind
    ensures SectionText(sections, kind) == ValueAt(sections[i].fields, "text")
  {
    var n := |sections| - 1;
    if i < n {
      LastSection(sections[..n], kind, i);
    }
  }

  /** Which section fills which column: the introduction, the key points (the section
      "thesis") and the conclusions, the last of a type standing. */
  lemma SummaryColumns(taskId: string, content: Content, i: nat)
    requires "sections" in content && content["sections"].JList? && i < |content["sections"].items|
    requires var s := content["sections"].items; s[i].JObj? && "type" in s[i].fields && s[i].fields["type"].JStr? && "text" in s[i].fields
    requires var s := content["sections"].items;
      forall j :: i < j < |s| && s[j].JObj? ==> Str(ValueAt(s[j].fields, "type")) != s[i].fields["type"].str
    ensures var row, kind, text := SummaryRowOf(taskId, content), content["sections"].items[i].fields["type"].str,
                                   content["sections"].items[i].fields["text"];
      && row.taskId == taskId
      && (kind == "introduction" ==> row.introduction == text)
      && (kind == "thesis" ==> row.keyPoints == text)
      && (kind == "conclusion" ==> row.conclusions == text)
  {
    LastSection(content["sections"].items, content["sections"].items[i].fields["type"].str, i);
  }

  // ----- Terms and citations -----

  function TermId(taskId: string, index: nat): string {
    "term-" + taskId + "-" + Decimal(index)
  }

  function TermRowOf(taskId: string, index: nat, term: Content): TermRow {
    TermRow(TermId(taskId, index), taskId, ValueAt(term, "source_chunk_id"),
            if "term" in term then Str(term["term"]) else "",
            ValueAt(term, "lemma"), ValueAt(term, "frequency"), ValueAt(term, "category"))
  }

  /** The rows of the items that are objects, numbered by position among all items. */
  function TermRowsOf(taskId: string, terms: seq<Json>): seq<TermRow> {
    if terms == [] then []
    else
      var n := |terms| - 1;
      TermRowsOf(taskId, terms[..n]) + if terms[n].JObj? then [TermRowOf(taskId, n, terms[n].fields)] else []
  }

  /** `term_rows`. */
  method MakeTermRows(taskId: string, content: Content) returns (rows: seq<TermRow>)
    ensures rows == TermRowsOf(taskId, Items(ValueAt(content, "terms")))
  {
    var terms := Items(ValueAt(content, "terms"));
    rows := [];
    for i := 0 to |terms|
      invariant rows == TermRowsOf(taskId, terms[..i])
    {
      assert terms[..i + 1][..i] == terms[..i];
      if terms[i].JObj? {
        rows := rows + [TermRowOf(taskId, i, terms[i].fields)];
      }
    }
    assert terms[..|terms|] == terms;
  }

  function TermItem(row: TermRow): Json {
    JObj(map["term" := JStr(row.term), "lemma" := row.stem, "frequency" := row.frequency, "category" := row.category,
             "context" := JNull, "source_chunk_id" := row.chunkId])
  }

  /** `content_from_term_rows`. */
  function TermsContent(rows: seq<TermRow>): Content {
    map["terms" := JList(seq(|rows|, i requires 0 <= i < |rows| => TermItem(rows[i])))]
  }

  /** An item with the fields of `Term`. */
  predicate IsTerm(j: Json) {
    j.JObj? && j.fields.Keys == {"term", "lemma", "frequency", "category", "context", "source_chunk_id"} &&
    j.fields["term"].JStr?
  }

  /** A stored term comes back without its context. */
  lemma TermRoundTrip(taskId: string, index: nat, j: Json)
    requires IsTerm(j)
    ensures TermItem(TermRowOf(taskId, index, j.fields)) == JObj(j.fields["context" := JNull])
  {
    assert TermItem(TermRowOf(taskId, index, j.fields)).fields == j.fields["context" := JNull];
  }

  /** Which field of a term fills which column. */
  lemma TermColumns(taskId: string, terms: seq<Json>, i: nat) returns (row: TermRow)
    requires i < |terms| && IsTerm(terms[i])
    ensures row in TermRowsOf(taskId, terms)
    ensures row.id == "term-" + taskId + "-" + Decimal(i) && row.taskId == taskId
    ensures var term := terms[i].fields;
      && JStr(row.term) == term["term"] && row.stem == term["lemma"] && row.frequency == term["frequency"]
      && row.category == term["category"] && row.chunkId == term["source_chunk_id"]
  {
    row := TermRowOf(taskId, i, terms[i].fields);
    TermRowIsThere(taskId, terms, i);
  }

  lemma {:induction false} TermRowIsThere(taskId: string, terms: seq<Json>, i: nat)
    requires i < |terms| && terms[i].JObj?
    ensures TermRowOf(taskId, i, terms[i].fields) in TermRowsOf(taskId, terms)
  {
    if i < |terms| - 1 {
      TermRowIsThere(taskId, terms[..|terms| - 1], i);
    }
  }

  function CitationId(taskId: string, index: nat): string {
    "cit-" + taskId + "-" + Decimal(index)
  }

  function CitationRowOf(taskId: string, index: nat, citation: Content): CitationRow {
    CitationRow(CitationId(taskId, index), taskId, if "title" in citation then Str(citation["title"]) else "",
                ValueAt(citation, "authors"), ValueAt(citation, "year"), ValueAt(citation, "url"),
                ValueAt(citation, "relevance_score"))
  }

  function CitationRowsOf(taskId: string, citations: seq<Json>): seq<CitationRow> {
    if citations == [] then []
    else
      var n := |citations| - 1;
      CitationRowsOf(taskId, citations[..n]) +
        if citations[n].JObj? then [CitationRowOf(taskId, n, citations[n].fields)] else []
  }

  /** `citation_rows`. */
  method MakeCitationRows(taskId: string, content: Content) returns (rows: seq<CitationRow>)
    ensures rows == CitationRowsOf(taskId, Items(ValueAt(content, "citations")))
  {
    var citations := Items(ValueAt(content, "citations"));
    rows := [];
    for i := 0 to |citations|
      invariant rows == CitationRowsOf(taskId, citations[..i])
    {
      assert citations[..i + 1][..i] == citations[..i];
      if citations[i].JObj? {
        rows := rows + [CitationRowOf(taskId, i, citations[i].fields)];
      }
    }
    assert citations[..|citations|] == citations;
  }

  function CitationItem(row: CitationRow): Json {
    JObj(map["title" := JStr(row.title), "authors" := row.authors, "year" := row.year, "url" := row.url,
             "relevance_score" := row.relevance])
  }

  /** `content_from_citation_rows`. */
  function CitationsContent(rows: seq<CitationRow>): Content {
    map["citations" := JList(seq(|rows|, i requires 0 <= i < |rows| => CitationItem(rows[i])))]
  }

  predicate IsCitation(j: Json) {
    j.JObj? && j.fields.Keys == {"title", "authors", "year", "url", "relevance_score"} && j.fields["title"].JStr?
  }

  lemma CitationRoundTrip(taskId: string, index: nat, j: Json)
    requires IsCitation(j)
    ensures CitationItem(CitationRowOf(taskId, index, j.fields)) == j
  {
    assert CitationItem(CitationRowOf(taskId, index, j.fields)).fields == j.fields;
  }

  /** Which field of a citation fills which column. */
  lemma CitationColumns(taskId: string, citations: seq<Json>, i: nat) returns (row: CitationRow)
    requires i < |citations| && IsCitation(citations[i])
    ensures row in CitationRowsOf(taskId, citations)
    ensures row.id == "cit-" + taskId + "-" + Decimal(i) && row.taskId == taskId
    ensures var citation := citations[i].fields;
      && JStr(row.title) == citation["title"] && row.authors == citation["authors"] && row.year == citation["year"]
      && row.url == citation["url"] && row.relevance == citation["relevance_score"]
  {
    row := CitationRowOf(taskId, i, citations[i].fields);
    CitationRowIsThere(taskId, citations, i);
  }

  lemma {:induction false} CitationRowIsThere(taskId: string, citations: seq<Json>, i: nat)
    requires i < |citations| && citations[i].JObj?
    ensures CitationRowOf(taskId, i, citations[i].fields) in CitationRowsOf(taskId, citations)
  {
    if i < |citations| - 1 {
      CitationRowIsThere(taskId, citations[..|citations| - 1], i);
    }
  }

  // ----- Quizzes -----

  /** `quiz_row`. */
  function QuizRowOf(taskId: string, content: Content): QuizRow {
    QuizRow(Str(OrElse(ValueAt(content, "quiz_id"), JStr("quiz-" + taskId))), taskId,
            Items(ValueAt(content, "questions")), ValueAt(content, "difficulty"))
  }

  /** `content_from_quiz_row`. */
  function QuizContent(row: QuizRow): Content {
    map["quiz_id" := JStr(row.id), "questions" := JList(row.questions), "difficulty" := row.difficulty]
  }

  lemma QuizRoundTrip(taskId: string, content: Content)
    requires content.Keys == {"quiz_id", "questions", "difficulty"}
    requires content["quiz_id"] == JStr("quiz-" + taskId) && content["questions"].JList?
    ensures QuizContent(QuizRowOf(taskId, content)) == content
  {
  }

  // ----- Chunks -----

  function ChunkRowOf(taskId: string, chunk: Content): Option<ChunkRow> {
    var index := if "chunk_index" in chunk then IntOf(chunk["chunk_index"]) else Some(0);
    if index.None? then None
    else
      var meta := ValueAt(chunk, "meta");
      Some(ChunkRow(Str(ValueAt(chunk, "id")), taskId, Str(ValueAt(chunk, "document_id")),
                    Str(ValueAt(chunk, "source_type")),
                    if "content" in chunk then Str(chunk["content"]) else "", index.value,
                    ValueAt(chunk, "confidence"), if meta.JObj? then Some(meta.fields) else None))
  }

  /** The rows of the items that are objects; None is an exception. */
  function ChunkRowsOf(taskId: string, chunks: seq<Json>): Option<seq<ChunkRow>> {
    if chunks == [] then Some([])
    else
      var n := |chunks| - 1;
      var before := ChunkRowsOf(taskId, chunks[..n]);
      if before.None? || !chunks[n].JObj? then before
      else
        var row := ChunkRowOf(taskId, chunks[n].fields);
        if row.None? then None else Some(before.value + [row.value])
  }

  lemma {:induction false} ChunkRowsFail(taskId: string, chunks: seq<Json>, i: nat)
    requires i <= |chunks| && ChunkRowsOf(taskId, chunks[..i]).None?
    ensures ChunkRowsOf(taskId, chunks).None?
    decreases |chunks|
  {
    if i < |chunks| {
      assert chunks[..|chunks| - 1][..i] == chunks[..i];
      ChunkRowsFail(taskId, chunks[..|chunks| - 1], i);
    } else {
      assert chunks[..i] == chunks;
    }
  }

  /** `chunk_rows`. */
  method MakeChunkRows(taskId: string, content: Content) returns (rows: Option<seq<ChunkRow>>)
    ensures rows == ChunkRowsOf(taskId, Items(ValueAt(content, "chunks")))
  {
    var chunks := Items(ValueAt(content, "chunks"));
    var made: seq<ChunkRow> := [];
    for i := 0 to |chunks|
      invariant ChunkRowsOf(taskId, chunks[..i]) == Some(made)
    {
      assert chunks[..i + 1][..i] == chunks[..i];
      if chunks[i].JObj? {
        var row := ChunkRowOf(taskId, chunks[i].fields);
        if row.None? {
          ChunkRowsFail(taskId, chunks, i + 1);
          return None;
        }
        made := made + [row.value];
      }
    }
    assert chunks[..|chunks|] == chunks;
    rows := Some(made);
  }

  function ChunkItem(row: ChunkRow): Json {
    JObj(map["id" := JStr(row.id), "task_id" := JStr(row.taskId), "document_id" := JStr(row.documentId),
             "source_type" := JStr(row.sourceType), "content" := JStr(row.content),
             "chunk_index" := JNum(row.index as real), "confidence" := row.confidence,
             "meta" := JObj(if row.meta.Some? then row.meta.value else map[])])
  }

  /** `content_from_chunk_rows`. */
  function ChunksContent(rows: seq<ChunkRow>): Content {
    map["chunks" := JList(seq(|rows|, i requires 0 <= i < |rows| => ChunkItem(rows[i])))]
  }

  /** An item with the fields of `TextChunk`, stamped with its task. */
  predicate IsChunk(taskId: string, j: Json) {
    && j.JObj?
    && j.fields.Keys ==
       {"id", "task_id", "document_id", "source_type", "content", "chunk_index", "confidence", "meta"}
    && j.fields["id"].JStr? && j.fields["task_id"] == JStr(taskId) && j.fields["document_id"].JStr?
    && j.fields["source_type"].JStr? && j.fields["content"].JStr? && j.fields["meta"].JObj?
    && j.fields["chunk_index"].JNum? && j.fields["chunk_index"].num == j.fields["chunk_index"].num.Floor as real
  }

  lemma ChunkRoundTrip(taskId: string, j: Json)
    requires IsChunk(taskId, j)
    ensures ChunkRowOf(taskId, j.fields).Some? && ChunkItem(ChunkRowOf(taskId, j.fields).value) == j
  {
    var x := j.fields["chunk_index"].num;
    WholeNumber(x);
    var row := ChunkRowOf(taskId, j.fields).value;
    assert ChunkItem(row).fields == j.fields;
  }

  /** Which field of a chunk fills which column. */
  lemma {:induction false} ChunkColumns(taskId: string, chunks: seq<Json>, i: nat) returns (row: ChunkRow)
    requires ChunkRowsOf(taskId, chunks).Some? && i < |chunks| && IsChunk(taskId, chunks[i])
    ensures row in ChunkRowsOf(taskId, chunks).value && row.taskId == taskId
    ensures var chunk := chunks[i].fields;
      && JStr(row.id) == chunk["id"] && JStr(row.documentId) == chunk["document_id"]
      && JStr(row.sourceType) == chunk["source_type"] && JStr(row.content) == chunk["content"]
      && JNum(row.index as real) == chunk["chunk_index"] && row.confidence == chunk["confidence"]
      && row.meta.Some? && JObj(row.meta.value) == chunk["meta"]
  {
    var n := |chunks| - 1;
    if i < n {
      row := ChunkColumns(taskId, chunks[..n], i);
    } else {
      WholeNumber(chunks[i].fields["chunk_index"].num);
      row := ChunkRowOf(taskId, chunks[i].fields).value;
    }
  }

  lemma WholeNumber(x: real)
    requires x == x.Floor as real
    ensures IntOf(JNum(x)) == Some(x.Floor)
  {
    assert -x == (-x.Floor) as real;
  }
}
