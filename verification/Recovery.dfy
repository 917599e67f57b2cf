/** Reloading of results after a restart (src/agents/recovery.py) from the
    tables that saved them. */
module Recovery {
  import opened Basics
  import opened Plans
  import opened Mapping
  import opened Tables
  import opened Storage

  /** _SOURCE_TYPE_TO_OPERATION. */
  function BucketOf(sourceType: string): Option<Operation> {
    if sourceType == "audio" then Some(F1)
    else if sourceType == "pdf_extracted" || sourceType == "image" then Some(F2)
    else None
  }

  function InBucket(rows: seq<ChunkRow>, op: Operation): seq<ChunkRow> {
    if rows == [] then []
    else
      var last := rows[|rows| - 1];
      InBucket(rows[..|rows| - 1], op) + if BucketOf(last.sourceType) == Some(op) then [last] else []
  }

  predicate AllKnown(rows: seq<ChunkRow>) {
    forall i :: 0 <= i < |rows| ==> BucketOf(rows[i].sourceType).Some?
  }

  /** The buckets hold the rows by origin, in order. */
  ghost predicate Bucketed(rows: seq<ChunkRow>, buckets: map<Operation, seq<ChunkRow>>) {
    && AllKnown(rows)
    && (forall op :: op in buckets <==> InBucket(rows, op) != [])
    && (forall op :: op in buckets ==> buckets[op] == InBucket(rows, op))
  }

  lemma BucketedNext(rows: seq<ChunkRow>, buckets: map<Operation, seq<ChunkRow>>, row: ChunkRow)
    requires Bucketed(rows, buckets) && BucketOf(row.sourceType).Some?
    ensures var op := BucketOf(row.sourceType).value;
      Bucketed(rows + [row], buckets[op := (if op in buckets then buckets[op] else []) + [row]])
  {
    hide BucketOf, InBucket;
    var o := BucketOf(row.sourceType).value;
    forall op | true ensures InBucket(rows + [row], op) == if op == o then InBucket(rows, op) + [row] else InBucket(rows, op) {
      InBucketAppend(rows, row, op);
    }
  }

  lemma InBucketAppend(rows: seq<ChunkRow>, row: ChunkRow, op: Operation)
    ensures InBucket(rows + [row], op) ==
      if BucketOf(row.sourceType) == Some(op) then InBucket(rows, op) + [row] else InBucket(rows, op)
  {
    assert (rows + [row])[..|rows|] == rows;
  }

  /** Audio chunks belong to the transcription, extracted and recognised ones to the
      recognition; there is no bucket without a chunk. */
  ghost predicate ByOrigin(rows: seq<ChunkRow>, buckets: map<Operation, seq<ChunkRow>>) {
    var transcribed, recognised := OfOrigin(rows, {"audio"}), OfOrigin(rows, {"pdf_extracted", "image"});
    && buckets.Keys <= {F1, F2}
    && (if transcribed == [] then F1 !in buckets else F1 in buckets && buckets[F1] == transcribed)
    && (if recognised == [] then F2 !in buckets else F2 in buckets && buckets[F2] == recognised)
  }

  /** The rows of the given origins, in order. */
  function OfOrigin(rows: seq<ChunkRow>, origins: set<string>): seq<ChunkRow> {
    if rows == [] then []
    else
      var last := rows[|rows| - 1];
      OfOrigin(rows[..|rows| - 1], origins) + if last.sourceType in origins then [last] else []
  }

  /** Transcribed chunks are told from recognised ones by their origin. */
  lemma {:induction false} BucketsByOrigin(rows: seq<ChunkRow>)
    ensures InBucket(rows, F1) == OfOrigin(rows, {"audio"})
    ensures InBucket(rows, F2) == OfOrigin(rows, {"pdf_extracted", "image"})
    ensures forall op :: op != F1 && op != F2 ==> InBucket(rows, op) == []
    ensures AllKnown(rows) <==> forall r :: r in rows ==> r.sourceType in {"audio", "pdf_extracted", "image"}
  {
    if rows != [] {
      assert rows == rows[..|rows| - 1] + [rows[|rows| - 1]];
      BucketsByOrigin(rows[..|rows| - 1]);
    }
  }

  /** `bucket_chunks_by_operation`; None is its `ValueError`. */
  method BucketChunks(rows: seq<ChunkRow>) returns (buckets: Option<map<Operation, seq<ChunkRow>>>)
    ensures buckets.Some? <==> AllKnown(rows)
    ensures buckets.Some? ==> forall op :: op in buckets.value <==> InBucket(rows, op) != []
    ensures buckets.Some? ==> forall op :: op in buckets.value ==> buckets.value[op] == InBucket(rows, op)
    ensures buckets.Some? <==> forall r :: r in rows ==> r.sourceType in {"audio", "pdf_extracted", "image"}
    ensures buckets.Some? ==> ByOrigin(rows, buckets.value)
  {
    BucketsByOrigin(rows);
    hide InBucket, BucketOf, OfOrigin;
    var made: map<Operation, seq<ChunkRow>> := map[];
    NothingBucketed();
    for i := 0 to |rows|
      invariant Bucketed(rows[..i], made)
    {
      assert rows[..i + 1] == rows[..i] + [rows[i]];
      var op := BucketOf(rows[i].sourceType);
      if op.None? {
        return None;
      }
      BucketedNext(rows[..i], made, rows[i]);
      made := made[op.value := (if op.value in made then made[op.value] else []) + [rows[i]]];
    }
    assert rows[..|rows|] == rows;
    buckets := Some(made);
  }

  lemma NothingBucketed()
    ensures Bucketed([], map[])
  {
  }

  ghost function RowsOf<R>(task: R -> string, table: map<string, R>, taskId: string): seq<R> {
    Listing(Of(task, table, taskId))
  }

  /** `select ... where task_id = ... order by id`. */
  method ListRows<R>(task: R -> string, table: map<string, R>, taskId: string) returns (rows: seq<R>)
    ensures rows == RowsOf(task, table, taskId)
  {
    var own := Of(task, table, taskId);
    OrderedIsAscending(own.Keys);
    var ids := OrderIds(own.Keys);
    rows := seq(|ids|, i requires 0 <= i < |ids| => assert ids[i] in ids; own[ids[i]]);
  }

  /** The result of one operation that the tables hold for a task. */
  ghost function Stored(db: Db, taskId: string, op: Operation): Option<Content> {
    match op
    case F1 =>
      var rows := InBucket(RowsOf(ChunkTask, db.chunks, taskId), F1);
      if rows == [] then None else Some(ChunksContent(rows))
    case F2 =>
      var rows := InBucket(RowsOf(ChunkTask, db.chunks, taskId), F2);
      if rows == [] then None else Some(ChunksContent(rows))
    case F3 =>
      var rows := RowsOf(SummaryTask, db.summaries, taskId);
      if rows == [] then None else Some(SummaryContent(rows[0]))
    case F4 =>
      var rows := RowsOf(QuizTask, db.quizzes, taskId);
      if rows == [] then None else Some(QuizContent(rows[0]))
    case F5 =>
      var rows := RowsOf(TermTask, db.terms, taskId);
      if rows == [] then None else Some(TermsContent(rows))
    case F6 =>
      var rows := RowsOf(CitationTask, db.citations, taskId);
      if rows == [] then None else Some(CitationsContent(rows))
  }

  /** No chunk of unknown origin, at most one summary and one quiz. */
  ghost predicate Loadable(db: Db, taskId: string) {
    && AllKnown(RowsOf(ChunkTask, db.chunks, taskId))
    && |RowsOf(SummaryTask, db.summaries, taskId)| <= 1
    && |RowsOf(QuizTask, db.quizzes, taskId)| <= 1
  }

  /** The results are, by subtask id, those the tables hold. */
  ghost predicate Loads(db: Db, taskId: string, results: map<Id, Content>, ops: set<Operation>) {
    && (forall id :: id in results ==> exists op :: op in ops && id == SubtaskIdFor(taskId, op))
    && forall op :: op in ops ==> Lookup(results, SubtaskIdFor(taskId, op)) == Stored(db, taskId, op)
  }

  function With(results: map<Id, Content>, id: Id, content: Option<Content>): map<Id, Content> {
    match content
    case Some(c) => results[id := c]
    case None => results
  }

  lemma LoadsOneMore(db: Db, taskId: string, results: map<Id, Content>, ops: set<Operation>, op: Operation, content: Option<Content>)
    requires Loads(db, taskId, results, ops) && op !in ops && content == Stored(db, taskId, op)
    ensures Loads(db, taskId, With(results, SubtaskIdFor(taskId, op), content), ops + {op})
  {
    hide Stored, SubtaskIdFor;
    var after := With(results, SubtaskIdFor(taskId, op), content);
    forall o, p | true ensures SubtaskIdFor(taskId, o) == SubtaskIdFor(taskId, p) ==> o == p {
      if SubtaskIdFor(taskId, o) == SubtaskIdFor(taskId, p) {
        SubtaskIdInjective(taskId, o, taskId, p);
      }
    }
    assert SubtaskIdFor(taskId, op) !in results;
    forall id | id in after ensures exists o :: o in ops + {op} && id == SubtaskIdFor(taskId, o) {
      if id in results {
        var o :| o in ops && id == SubtaskIdFor(taskId, o);
        assert o in ops + {op};
      } else {
        assert op in ops + {op};
      }
    }
  }

  const ALL_OPERATIONS: set<Operation> := {F1, F2, F3, F4, F5, F6}

  /** The chunk part of `_load_results`. */
  method LoadChunks(repo: ResultRepo, taskId: string) returns (ok: bool, first: Option<Content>, second: Option<Content>)
    ensures ok <==> AllKnown(RowsOf(ChunkTask, repo.chunks, taskId))
    ensures ok ==> first == Stored(repo.Contents(), taskId, F1) && second == Stored(repo.Contents(), taskId, F2)
  {
    hide AllKnown, Listing, Of;
    var rows := ListRows(ChunkTask, repo.chunks, taskId);
    var buckets := BucketChunks(rows);
    if buckets.None? {
      return false, None, None;
    }
    ok := true;
    first := if F1 in buckets.value then Some(ChunksContent(buckets.value[F1])) else None;
    second := if F2 in buckets.value then Some(ChunksContent(buckets.value[F2])) else None;
  }

  /** The summary part, with `scalar_one_or_none`. */
  method LoadSummary(repo: ResultRepo, taskId: string) returns (ok: bool, content: Option<Content>)
    ensures ok <==> |RowsOf(SummaryTask, repo.summaries, taskId)| <= 1
    ensures ok ==> content == Stored(repo.Contents(), taskId, F3)
  {
    var rows := ListRows(SummaryTask, repo.summaries, taskId);
    ok := |rows| <= 1;
    content := if rows == [] then None else Some(SummaryContent(rows[0]));
  }

  method LoadQuiz(repo: ResultRepo, taskId: string) returns (ok: bool, content: Option<Content>)
    ensures ok <==> |RowsOf(QuizTask, repo.quizzes, taskId)| <= 1
    ensures ok ==> content == Stored(repo.Contents(), taskId, F4)
  {
    var rows := ListRows(QuizTask, repo.quizzes, taskId);
    ok := |rows| <= 1;
    content := if rows == [] then None else Some(QuizContent(rows[0]));
  }

  method LoadTerms(repo: ResultRepo, taskId: string) returns (content: Option<Content>)
    ensures content == Stored(repo.Contents(), taskId, F5)
  {
    var rows := ListRows(TermTask, repo.terms, taskId);
    content := if rows == [] then None else Some(TermsContent(rows));
  }

  method LoadCitations(repo: ResultRepo, taskId: string) returns (content: Option<Content>)
    ensures content == Stored(repo.Contents(), taskId, F6)
  {
    var rows := ListRows(CitationTask, repo.citations, taskId);
    content := if rows == [] then None else Some(CitationsContent(rows));
  }

  /** `_load_results`; None is an exception. */
  method LoadResults(repo: ResultRepo, taskId: string) returns (r: Option<map<Id, Content>>)
    ensures r.Some? <==> Loadable(repo.Contents(), taskId)
    ensures r.Some? ==> Loads(repo.Contents(), taskId, r.value, ALL_OPERATIONS)
    ensures r.Some? ==> LoadedByOrigin(repo.Contents(), taskId, r.value)
  {
    hide Stored, Loads, AllKnown, RowsOf, LoadedByOrigin;
    NothingLoaded(repo.Contents(), taskId);
    var results: map<Id, Content> := map[];
    var ok, first, second := LoadChunks(repo, taskId);
    if !ok {
      return None;
    }
    results := Put(repo.Contents(), taskId, results, {}, F1, first);
    results := Put(repo.Contents(), taskId, results, {} + {F1}, F2, second);
    var summary, terms, quiz, citations;
    ok, summary := LoadSummary(repo, taskId);
    if !ok {
      return None;
    }
    results := Put(repo.Contents(), taskId, results, {} + {F1} + {F2}, F3, summary);
    terms := LoadTerms(repo, taskId);
    results := Put(repo.Contents(), taskId, results, {} + {F1} + {F2} + {F3}, F5, terms);
    ok, quiz := LoadQuiz(repo, taskId);
    if !ok {
      return None;
    }
    results := Put(repo.Contents(), taskId, results, {} + {F1} + {F2} + {F3} + {F5}, F4, quiz);
    citations := LoadCitations(repo, taskId);
    results := Put(repo.Contents(), taskId, results, {} + {F1} + {F2} + {F3} + {F5} + {F4}, F6, citations);
    assert {} + {F1} + {F2} + {F3} + {F5} + {F4} + {F6} == ALL_OPERATIONS;
    r := Some(results);
    ChunksLoaded(repo.Contents(), taskId, results);
  }

  /** The ingestions have exactly the chunks of their origin, in the order of their ids. */
  ghost predicate LoadedByOrigin(db: Db, taskId: string, results: map<Id, Content>) {
    var rows := RowsOf(ChunkTask, db.chunks, taskId);
    && HasChunks(results, "st-" + taskId + "-" + "F1", OfOrigin(rows, {"audio"}))
    && HasChunks(results, "st-" + taskId + "-" + "F2", OfOrigin(rows, {"pdf_extracted", "image"}))
  }

  ghost predicate HasChunks(results: map<Id, Content>, id: Id, rows: seq<ChunkRow>) {
    if rows == [] then id !in results else id in results && results[id] == ChunksContent(rows)
  }

  lemma ChunksLoaded(db: Db, taskId: string, results: map<Id, Content>)
    requires Loads(db, taskId, results, ALL_OPERATIONS)
    ensures LoadedByOrigin(db, taskId, results)
  {
    hide InBucket, OfOrigin, AllKnown, ChunksContent, Listing, Of;
    BucketsByOrigin(RowsOf(ChunkTask, db.chunks, taskId));
    NamesOf(taskId);
    assert F1 in ALL_OPERATIONS && F2 in ALL_OPERATIONS;
  }

  method Put(ghost db: Db, taskId: string, results: map<Id, Content>, ghost ops: set<Operation>, op: Operation,
             content: Option<Content>) returns (after: map<Id, Content>)
    requires Loads(db, taskId, results, ops) && op !in ops && content == Stored(db, taskId, op)
    ensures Loads(db, taskId, after, ops + {op})
  {
    LoadsOneMore(db, taskId, results, ops, op, content);
    after := With(results, SubtaskIdFor(taskId, op), content);
  }

  lemma NothingLoaded(db: Db, taskId: string)
    ensures Loads(db, taskId, map[], {})
  {
  }
}
