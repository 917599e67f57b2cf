/** The result tables and the saving of results (`ResultRepo` in src/db/repos.py,
    `save_result` in src/agents/store.py). A save that raises is rolled back. */
module Storage {
  import opened Basics
  import opened Plans
  import opened Mapping
  import opened Tables

  /** The contents of the five tables. */
  datatype Db = Db(
    chunks: map<string, ChunkRow>, summaries: map<string, SummaryRow>, terms: map<string, TermRow>,
    quizzes: map<string, QuizRow>, citations: map<string, CitationRow>)

  const EMPTY_DB: Db := Db(map[], map[], map[], map[], map[])

  function ChunkKey(r: ChunkRow): string { r.id }
  function ChunkTask(r: ChunkRow): string { r.taskId }
  function ChunkDocument(r: ChunkRow): string { r.documentId }
  function SummaryTask(r: SummaryRow): string { r.taskId }
  function TermKey(r: TermRow): string { r.id }
  function TermTask(r: TermRow): string { r.taskId }
  function QuizTask(r: QuizRow): string { r.taskId }
  function CitationKey(r: CitationRow): string { r.id }
  function CitationTask(r: CitationRow): string { r.taskId }

  function DocumentsOf(rows: seq<ChunkRow>): set<string> {
    set r | r in rows :: r.documentId
  }

  /** `save_chunks` on the table: the documents of the new rows are replaced. */
  function SavedChunks(table: map<string, ChunkRow>, taskId: string, content: Content): Option<map<string, ChunkRow>> {
    match ChunkRowsOf(taskId, Items(ValueAt(content, "chunks")))
    case None => None
    case Some(rows) =>
      AddAll((map id | id in table && table[id].documentId !in DocumentsOf(rows) :: table[id]), ChunkKey, rows)
  }

  function SavedTerms(table: map<string, TermRow>, taskId: string, content: Content): Option<map<string, TermRow>> {
    AddAll(WithoutOwner(TermTask, table, taskId), TermKey, TermRowsOf(taskId, Items(ValueAt(content, "terms"))))
  }

  function SavedCitations(table: map<string, CitationRow>, taskId: string, content: Content)
    : Option<map<string, CitationRow>>
  {
    AddAll(WithoutOwner(CitationTask, table, taskId), CitationKey,
           CitationRowsOf(taskId, Items(ValueAt(content, "citations"))))
  }

  /** `save_result` on the tables. */
  function Saved(db: Db, taskId: string, op: Operation, content: Content): Option<Db> {
    match op
    case F1 => (match SavedChunks(db.chunks, taskId, content)
                case Some(t) => Some(db.(chunks := t))
                case None => None)
    case F2 => (match SavedChunks(db.chunks, taskId, content)
                case Some(t) => Some(db.(chunks := t))
                case None => None)
    case F3 =>
      var row := SummaryRowOf(taskId, content);
      Some(db.(summaries := db.summaries[row.id := row]))
    case F4 =>
      var row := QuizRowOf(taskId, content);
      Some(db.(quizzes := db.quizzes[row.id := row]))
    case F5 => (match SavedTerms(db.terms, taskId, content)
                case Some(t) => Some(db.(terms := t))
                case None => None)
    case F6 => (match SavedCitations(db.citations, taskId, content)
                case Some(t) => Some(db.(citations := t))
                case None => None)
  }

  lemma {:induction false} AddAllFails<R>(table: map<string, R>, key: R -> string, rows: seq<R>, i: nat)
    requires i <= |rows| && AddAll(table, key, rows[..i]).None?
    ensures AddAll(table, key, rows).None?
    decreases |rows|
  {
    if i < |rows| {
      assert rows[..|rows| - 1][..i] == rows[..i];
      AddAllFails(table, key, rows[..|rows| - 1], i);
    } else {
      assert rows[..i] == rows;
    }
  }

  /** `session.add` for every row, and the flush. */
  method AddRows<R>(table: map<string, R>, key: R -> string, rows: seq<R>) returns (after: Option<map<string, R>>)
    ensures after == AddAll(table, key, rows)
  {
    var current := table;
    for i := 0 to |rows|
      invariant AddAll(table, key, rows[..i]) == Some(current)
    {
      assert rows[..i + 1][..i] == rows[..i];
      if key(rows[i]) in current {
        AddAllFails(table, key, rows, i + 1);
        return None;
      }
      current := current[key(rows[i]) := rows[i]];
    }
    assert rows[..|rows|] == rows;
    after := Some(current);
  }

  class ResultRepo {
    var chunks: map<string, ChunkRow>
    var summaries: map<string, SummaryRow>
    var terms: map<string, TermRow>
    var quizzes: map<string, QuizRow>
    var citations: map<string, CitationRow>

    function Contents(): Db
      reads this
    {
      Db(chunks, summaries, terms, quizzes, citations)
    }

    constructor ()
      ensures Contents() == EMPTY_DB
    {
      chunks, summaries, terms, quizzes, citations := map[], map[], map[], map[], map[];
    }

    /** `save_summary`. */
    method SaveSummary(taskId: string, content: Content)
      modifies this`summaries
      ensures Saved(old(Contents()), taskId, F3, content) == Some(Contents())
    {
      var row := MakeSummaryRow(taskId, content);
      summaries := summaries[row.id := row];
    }

    /** `save_quiz`. */
    method SaveQuiz(taskId: string, content: Content)
      modifies this`quizzes
      ensures Saved(old(Contents()), taskId, F4, content) == Some(Contents())
    {
      var row := QuizRowOf(taskId, content);
      quizzes := quizzes[row.id := row];
    }

    /** `save_chunks`. */
    method SaveChunks(taskId: string, content: Content) returns (ok: bool)
      modifies this`chunks
      ensures ok <==> SavedChunks(old(chunks), taskId, content).Some?
      ensures chunks == if ok then SavedChunks(old(chunks), taskId, content).value else old(chunks)
    {
      var rows := MakeChunkRows(taskId, content);
      if rows.None? {
        return false;
      }
      var documentIds := DocumentsOf(rows.value);
      var kept := map id | id in chunks && chunks[id].documentId !in documentIds :: chunks[id];
      var after := AddRows(kept, ChunkKey, rows.value);
      ok := after.Some?;
      if ok {
        chunks := after.value;
      }
    }

    /** `save_terms`. */
    method SaveTerms(taskId: string, content: Content) returns (ok: bool)
      modifies this`terms
      ensures ok <==> SavedTerms(old(terms), taskId, content).Some?
      ensures terms == if ok then SavedTerms(old(terms), taskId, content).value else old(terms)
    {
      var rows := MakeTermRows(taskId, content);
      var after := AddRows(WithoutOwner(TermTask, terms, taskId), TermKey, rows);
      ok := after.Some?;
      if ok {
        terms := after.value;
      }
    }

    /** `save_citations`. */
    method SaveCitations(taskId: string, content: Content) returns (ok: bool)
      modifies this`citations
      ensures ok <==> SavedCitations(old(citations), taskId, content).Some?
      ensures citations == if ok then SavedCitations(old(citations), taskId, content).value else old(citations)
    {
      var rows := MakeCitationRows(taskId, content);
      var after := AddRows(WithoutOwner(CitationTask, citations, taskId), CitationKey, rows);
      ok := after.Some?;
      if ok {
        citations := after.value;
      }
    }

    /** `save_result`; false stands for an exception, after which nothing has changed. */
    method SaveResult(taskId: string, op: Operation, content: Content) returns (ok: bool)
      modifies this
      ensures ok <==> Saved(old(Contents()), taskId, op, content).Some?
      ensures Contents() == if ok then Saved(old(Contents()), taskId, op, content).value else old(Contents())
    {
      ok := true;
      match op {
        case F1 => ok := SaveChunks(taskId, content);
        case F2 => ok := SaveChunks(taskId, content);
        case F3 => SaveSummary(taskId, content);
        case F4 => SaveQuiz(taskId, content);
        case F5 => ok := SaveTerms(taskId, content);
        case F6 => ok := SaveCitations(taskId, content);
      }
    }
  }
}
