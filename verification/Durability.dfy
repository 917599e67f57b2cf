/** What recovery finds after any sequence of saves. */
module Durability {
  import opened Basics
  import opened Plans
  import opened Texts
  import opened Mapping
  import opened Tables
  import opened Storage
  import opened Recovery

  datatype Save = Save(taskId: string, op: Operation, content: Content)

  function AfterSaves(saves: seq<Save>): Db {
    if saves == [] then EMPTY_DB
    else
      var s := saves[|saves| - 1];
      var before := AfterSaves(saves[..|saves| - 1]);
      match Saved(before, s.taskId, s.op, s.content)
      case Some(db) => db
      case None => before
  }

  // ----- Ids -----

  predicate Digits(s: string) {
    forall i :: 0 <= i < |s| ==> '0' <= s[i] <= '9'
  }

  /** What precedes the last dash. */
  function BeforeLastDash(s: string): string {
    if s == "" || s[|s| - 1] == '-' then (if s == "" then "" else s[..|s| - 1]) else BeforeLastDash(s[..|s| - 1])
  }

  lemma {:induction false} LastDash(a: string, d: string)
    requires Digits(d)
    ensures BeforeLastDash(a + "-" + d) == a
    decreases |d|
  {
    var s := a + "-" + d;
    if d == "" {
      assert s == a + "-" && s[..|s| - 1] == a;
    } else {
      assert s[|s| - 1] == d[|d| - 1];
      assert s[..|s| - 1] == a + "-" + d[..|d| - 1];
      LastDash(a, d[..|d| - 1]);
    }
  }

  lemma {:induction false} DecimalInjective(m: nat, n: nat)
    requires Decimal(m) == Decimal(n)
    ensures m == n
  {
    var a, b := Decimal(m), Decimal(n);
    LastDigit(m);
    LastDigit(n);
    if m >= 10 && n >= 10 {
      assert a[..|a| - 1] == b[..|b| - 1];
      DecimalInjective(m / 10, n / 10);
    }
  }

  lemma LastDigit(n: nat)
    ensures var s := Decimal(n);
      && s[|s| - 1] == '0' + (n % 10) as char
      && (if n < 10 then |s| == 1 else s[..|s| - 1] == Decimal(n / 10) && |s| > 1)
  {
    if n >= 10 {
      var s, front := Decimal(n), Decimal(n / 10);
      assert s == front + ['0' + (n % 10) as char];
      assert s[..|s| - 1] == front;
    }
  }

  lemma DecimalDigits(n: nat)
    ensures Digits(Decimal(n))
  {
    assert forall i :: 0 <= i < |Decimal(n)| ==> Decimal(n)[i] in Decimal(n);
  }

  lemma NumberedIds(prefix: string, i: nat, j: nat)
    ensures BeforeLastDash(prefix + "-" + Decimal(i)) == prefix
    ensures prefix + "-" + Decimal(i) == prefix + "-" + Decimal(j) ==> i == j
  {
    DecimalDigits(i);
    LastDash(prefix, Decimal(i));
    var a, b := prefix + "-" + Decimal(i), prefix + "-" + Decimal(j);
    assert a[|prefix| + 1..] == Decimal(i) && b[|prefix| + 1..] == Decimal(j);
    if a == b {
      DecimalInjective(i, j);
    }
  }

  // ----- Terms and citations -----

  function TermOwner(r: TermRow): string { "term-" + r.taskId }

  function CitationOwner(r: CitationRow): string { "cit-" + r.taskId }

  const TERMS: Kind<TermRow> := Kind(TermKey, TermOwner, BeforeLastDash)

  const CITATIONS: Kind<CitationRow> := Kind(CitationKey, CitationOwner, BeforeLastDash)

  lemma {:induction false} TermRowsGood(taskId: string, terms: seq<Json>)
    ensures GoodBatch(TERMS, Batch("term-" + taskId, TermRowsOf(taskId, terms)))
    ensures forall i :: 0 <= i < |TermRowsOf(taskId, terms)| ==>
      exists k :: 0 <= k < |terms| && TermRowsOf(taskId, terms)[i].id == TermId(taskId, k)
  {
    if terms != [] {
      var n := |terms| - 1;
      TermRowsGood(taskId, terms[..n]);
      NumberedIds("term-" + taskId, n, n);
      forall k | 0 <= k < n ensures TermId(taskId, k) != TermId(taskId, n) {
        NumberedIds("term-" + taskId, k, n);
      }
    }
  }

  lemma {:induction false} CitationRowsGood(taskId: string, citations: seq<Json>)
    ensures GoodBatch(CITATIONS, Batch("cit-" + taskId, CitationRowsOf(taskId, citations)))
    ensures forall i :: 0 <= i < |CitationRowsOf(taskId, citations)| ==>
      exists k :: 0 <= k < |citations| && CitationRowsOf(taskId, citations)[i].id == CitationId(taskId, k)
  {
    if citations != [] {
      var n := |citations| - 1;
      CitationRowsGood(taskId, citations[..n]);
      NumberedIds("cit-" + taskId, n, n);
      forall k | 0 <= k < n ensures CitationId(taskId, k) != CitationId(taskId, n) {
        NumberedIds("cit-" + taskId, k, n);
      }
    }
  }

  lemma SamePrefix(p: string, a: string, b: string)
    ensures p + a == p + b <==> a == b
  {
    assert (p + a)[|p|..] == a && (p + b)[|p|..] == b;
  }

  function TermsIn(s: Save): seq<TermRow> {
    TermRowsOf(s.taskId, Items(ValueAt(s.content, "terms")))
  }

  function CitationsIn(s: Save): seq<CitationRow> {
    CitationRowsOf(s.taskId, Items(ValueAt(s.content, "citations")))
  }

  function TermBatches(saves: seq<Save>): seq<Batch<TermRow>> {
    if saves == [] then []
    else
      var s := saves[|saves| - 1];
      TermBatches(saves[..|saves| - 1]) + if s.op == F5 then [Batch("term-" + s.taskId, TermsIn(s))] else []
  }

  function CitationBatches(saves: seq<Save>): seq<Batch<CitationRow>> {
    if saves == [] then []
    else
      var s := saves[|saves| - 1];
      CitationBatches(saves[..|saves| - 1]) + if s.op == F6 then [Batch("cit-" + s.taskId, CitationsIn(s))] else []
  }

  predicate AllGood<R>(kind: Kind<R>, batches: seq<Batch<R>>) {
    forall i :: 0 <= i < |batches| ==> GoodBatch(kind, batches[i])
  }

  lemma BatchesNext<R>(kind: Kind<R>, batches: seq<Batch<R>>, b: Batch<R>)
    requires AllGood(kind, batches) && GoodBatch(kind, b)
    ensures AllGood(kind, batches + [b])
    ensures Replaced(kind, AfterBatches(kind, batches), b) == Some(AfterBatches(kind, batches + [b]))
    ensures Sound(kind, AfterBatches(kind, batches))
  {
    LastBatchStands(kind, batches, b.owner);
    GoodBatchReplaces(kind, AfterBatches(kind, batches), b);
    assert (batches + [b])[..|batches|] == batches;
  }

  /** The term table follows the saves of terms; none of them fails. */
  lemma {:induction false} TermsFollow(saves: seq<Save>)
    ensures AllGood(TERMS, TermBatches(saves))
    ensures AfterSaves(saves).terms == AfterBatches(TERMS, TermBatches(saves))
  {
    if saves != [] {
      var s, front := saves[|saves| - 1], saves[..|saves| - 1];
      TermsFollow(front);
      if s.op == F5 {
        var table := AfterSaves(front).terms;
        TermRowsGood(s.taskId, Items(ValueAt(s.content, "terms")));
        BatchesNext(TERMS, TermBatches(front), Batch("term-" + s.taskId, TermsIn(s)));
        SameTermOwner(table, s.taskId);
      } else {
        assert TermBatches(saves) == TermBatches(front);
      }
    }
  }

  lemma SameTermOwner(table: map<string, TermRow>, taskId: string)
    ensures WithoutOwner(TermTask, table, taskId) == WithoutOwner(TermOwner, table, "term-" + taskId)
    ensures Of(TermTask, table, taskId) == Of(TermOwner, table, "term-" + taskId)
  {
    forall id | id in table ensures table[id].taskId == taskId <==> TermOwner(table[id]) == "term-" + taskId {
      SamePrefix("term-", table[id].taskId, taskId);
    }
  }

  lemma {:induction false} CitationsFollow(saves: seq<Save>)
    ensures AllGood(CITATIONS, CitationBatches(saves))
    ensures AfterSaves(saves).citations == AfterBatches(CITATIONS, CitationBatches(saves))
  {
    if saves != [] {
      var s, front := saves[|saves| - 1], saves[..|saves| - 1];
      CitationsFollow(front);
      if s.op == F6 {
        var table := AfterSaves(front).citations;
        CitationRowsGood(s.taskId, Items(ValueAt(s.content, "citations")));
        BatchesNext(CITATIONS, CitationBatches(front), Batch("cit-" + s.taskId, CitationsIn(s)));
        SameCitationOwner(table, s.taskId);
      } else {
        assert CitationBatches(saves) == CitationBatches(front);
      }
    }
  }

  lemma SameCitationOwner(table: map<string, CitationRow>, taskId: string)
    ensures WithoutOwner(CitationTask, table, taskId) == WithoutOwner(CitationOwner, table, "cit-" + taskId)
    ensures Of(CitationTask, table, taskId) == Of(CitationOwner, table, "cit-" + taskId)
  {
    forall id | id in table ensures table[id].taskId == taskId <==> CitationOwner(table[id]) == "cit-" + taskId {
      SamePrefix("cit-", table[id].taskId, taskId);
    }
  }

  // ----- The last save -----

  function ChunksIn(s: Save): Option<seq<ChunkRow>> {
    ChunkRowsOf(s.taskId, Items(ValueAt(s.content, "chunks")))
  }

  /** A save of chunks without any leaves the table alone. */
  predicate Effective(s: Save) {
    s.op == F1 || s.op == F2 ==> ChunksIn(s).Some? && ChunksIn(s).value != []
  }

  /** The last effective save of an operation of a task. */
  function LastSave(saves: seq<Save>, taskId: string, op: Operation): (last: Option<Save>)
    ensures last.Some? ==> last.value.taskId == taskId && last.value.op == op && Effective(last.value)
    ensures last.Some? ==> last.value in saves
  {
    if saves == [] then None
    else
      var s := saves[|saves| - 1];
      if s.taskId == taskId && s.op == op && Effective(s) then Some(s)
      else LastSave(saves[..|saves| - 1], taskId, op)
  }

  lemma {:induction false} LastTerms(saves: seq<Save>, taskId: string)
    ensures var last := LastSave(saves, taskId, F5);
      LastRows(TermBatches(saves), "term-" + taskId) == if last.Some? then TermsIn(last.value) else []
  {
    if saves != [] {
      var s, front := saves[|saves| - 1], saves[..|saves| - 1];
      LastTerms(front, taskId);
      SamePrefix("term-", s.taskId, taskId);
      LastRowsNext(TermBatches(front), Batch("term-" + s.taskId, TermsIn(s)), "term-" + taskId);
    }
  }

  lemma LastRowsNext<R>(batches: seq<Batch<R>>, b: Batch<R>, o: string)
    ensures LastRows(batches + [b], o) == if b.owner == o then b.rows else LastRows(batches, o)
    ensures batches + [] == batches
  {
    assert (batches + [b])[..|batches|] == batches;
  }

  lemma {:induction false} LastCitations(saves: seq<Save>, taskId: string)
    ensures var last := LastSave(saves, taskId, F6);
      LastRows(CitationBatches(saves), "cit-" + taskId) == if last.Some? then CitationsIn(last.value) else []
  {
    if saves != [] {
      var s, front := saves[|saves| - 1], saves[..|saves| - 1];
      LastCitations(front, taskId);
      SamePrefix("cit-", s.taskId, taskId);
      LastRowsNext(CitationBatches(front), Batch("cit-" + s.taskId, CitationsIn(s)), "cit-" + taskId);
    }
  }

  /** What the tables hold for terms: the last saved ones, in the order of their ids. */
  lemma TermsAreDurable(saves: seq<Save>, taskId: string)
    ensures var last := LastSave(saves, taskId, F5);
      Stored(AfterSaves(saves), taskId, F5) ==
      if last.None? || TermsIn(last.value) == [] then None
      else Some(TermsContent(Listing(TableOf(TermKey, TermsIn(last.value)))))
  {
    hide AfterSaves, AfterBatches, GoodBatch, Sound, TermRowsOf, LastSave;
    TermsFollow(saves);
    LastTerms(saves, taskId);
    LastBatchStands(TERMS, TermBatches(saves), "term-" + taskId);
    SameTermOwner(AfterSaves(saves).terms, taskId);
    var rows := LastRows(TermBatches(saves), "term-" + taskId);
    var last := LastSave(saves, taskId, F5);
    if last.Some? {
      TermRowsGood(taskId, Items(ValueAt(last.value.content, "terms")));
    }
    ListingIsComplete(TermKey, rows);
  }

  lemma CitationsAreDurable(saves: seq<Save>, taskId: string)
    ensures var last := LastSave(saves, taskId, F6);
      Stored(AfterSaves(saves), taskId, F6) ==
      if last.None? || CitationsIn(last.value) == [] then None
      else Some(CitationsContent(Listing(TableOf(CitationKey, CitationsIn(last.value)))))
  {
    hide AfterSaves, AfterBatches, GoodBatch, Sound, CitationRowsOf, LastSave;
    CitationsFollow(saves);
    LastCitations(saves, taskId);
    LastBatchStands(CITATIONS, CitationBatches(saves), "cit-" + taskId);
    SameCitationOwner(AfterSaves(saves).citations, taskId);
    var rows := LastRows(CitationBatches(saves), "cit-" + taskId);
    var last := LastSave(saves, taskId, F6);
    if last.Some? {
      CitationRowsGood(taskId, Items(ValueAt(last.value.content, "citations")));
    }
    ListingIsComplete(CitationKey, rows);
  }

  // ----- The order of terms -----

  lemma {:induction false} BeforeAfterPrefix(p: string, a: string, b: string)
    ensures Before(p + a, p + b) <==> Before(a, b)
  {
    if p != "" {
      BeforeAfterPrefix(p[1..], a, b);
      assert (p + a)[1..] == p[1..] + a && (p + b)[1..] == p[1..] + b;
    } else {
      assert p + a == a && p + b == b;
    }
  }

  lemma OneDigitOrder(i: nat, j: nat)
    requires i < j < 10
    ensures Before(Decimal(i), Decimal(j))
  {
    assert Decimal(i) == ['0' + i as char] && Decimal(j) == ['0' + j as char];
  }

  predicate AllObjects(items: seq<Json>) {
    forall i :: 0 <= i < |items| ==> items[i].JObj?
  }

  lemma {:induction false} TermRowAt(taskId: string, terms: seq<Json>, i: nat)
    requires AllObjects(terms) && i < |terms|
    ensures |TermRowsOf(taskId, terms)| == |terms|
    ensures TermRowsOf(taskId, terms)[i] == TermRowOf(taskId, i, terms[i].fields)
  {
    var n := |terms| - 1;
    if i < n {
      TermRowAt(taskId, terms[..n], i);
    } else if n > 0 {
      TermRowAt(taskId, terms[..n], n - 1);
    }
  }

  /** Terms come back in the order in which they were saved exactly if there are
      no more than ten: the eleventh has an id before the third. */
  lemma TermOrder(taskId: string, terms: seq<Json>)
    requires AllObjects(terms)
    ensures var rows := TermRowsOf(taskId, terms);
      Listing(TableOf(TermKey, rows)) == rows <==> |terms| <= 10
  {
    var rows := TermRowsOf(taskId, terms);
    if |terms| <= 10 {
      forall i, j | 0 <= i < j < |rows| ensures Before(rows[i].id, rows[j].id) {
        if terms != [] {
          TermRowAt(taskId, terms, 0);
        }
        TermRowAt(taskId, terms, i);
        TermRowAt(taskId, terms, j);
        NumberedOrder("term-" + taskId, i, j);
      }
      if terms != [] {
        TermRowAt(taskId, terms, 0);
      }
      ListingKeepsOrder(TermKey, rows);
    } else {
      TermRowAt(taskId, terms, 2);
      TermRowAt(taskId, terms, 10);
      TermRowsGood(taskId, terms);
      ListingIsComplete(TermKey, rows);
      NumberedOrder("term-" + taskId, 0, 1);
      BeforeTotal(TermId(taskId, 2), TermId(taskId, 10));
    }
  }

  /** Up to ten terms are recovered as they were saved, without their contexts. */
  lemma TermsAreRecovered(saves: seq<Save>, taskId: string, terms: seq<Json>)
    requires var last := LastSave(saves, taskId, F5);
      last.Some? && ValueAt(last.value.content, "terms") == JList(terms)
    requires 0 < |terms| <= 10 && forall i :: 0 <= i < |terms| ==> IsTerm(terms[i])
    ensures Stored(AfterSaves(saves), taskId, F5) ==
      Some(map["terms" := JList(seq(|terms|, i requires 0 <= i < |terms| => WithoutContext(terms[i])))])
  {
    TermsAreDurable(saves, taskId);
    TermOrder(taskId, terms);
    var rows := TermRowsOf(taskId, terms);
    TermRowAt(taskId, terms, 0);
    TermItems(taskId, terms);
  }

  lemma TermItems(taskId: string, terms: seq<Json>)
    requires forall i :: 0 <= i < |terms| ==> IsTerm(terms[i])
    ensures TermsContent(TermRowsOf(taskId, terms)) ==
      map["terms" := JList(seq(|terms|, i requires 0 <= i < |terms| => WithoutContext(terms[i])))]
  {
    var rows := TermRowsOf(taskId, terms);
    if terms != [] {
      TermRowAt(taskId, terms, 0);
    }
    hide IsTerm, TermItem;
    var items := seq(|rows|, i requires 0 <= i < |rows| => TermItem(rows[i]));
    forall i | 0 <= i < |terms| ensures items[i] == WithoutContext(terms[i]) {
      ItemRestored(taskId, terms, i);
    }
    assert items == seq(|terms|, i requires 0 <= i < |terms| => WithoutContext(terms[i]));
  }

  lemma ItemRestored(taskId: string, terms: seq<Json>, i: nat)
    requires i < |terms| && forall i :: 0 <= i < |terms| ==> IsTerm(terms[i])
    ensures |TermRowsOf(taskId, terms)| == |terms| && TermItem(TermRowsOf(taskId, terms)[i]) == WithoutContext(terms[i])
  {
    TermRowAt(taskId, terms, i);
    TermRoundTrip(taskId, i, terms[i]);
  }

  function WithoutContext(j: Json): Json {
    if j.JObj? then JObj(j.fields["context" := JNull]) else j
  }

  // ----- Summaries and quizzes -----

  function SummaryKey(r: SummaryRow): string { r.id }
  function SummaryOwner(r: SummaryRow): string { "sum-" + r.taskId }
  function QuizKey(r: QuizRow): string { r.id }
  function QuizOwner(r: QuizRow): string { "quiz-" + r.taskId }
  function Itself(id: string): string { id }

  const SUMMARIES: Kind<SummaryRow> := Kind(SummaryKey, SummaryOwner, Itself)
  const QUIZZES: Kind<QuizRow> := Kind(QuizKey, QuizOwner, Itself)

  /** Where the rows of documents belong: the document an operation of a task
      works on, and the document a chunk id names. */
  datatype Layout = Layout(document: (string, Operation) -> string, documentOf: string -> string)

  ghost predicate WellLaidOut(layout: Layout) {
    forall t, a, u, b :: (a == F1 || a == F2) && (b == F1 || b == F2) && layout.document(t, a) == layout.document(u, b)
      ==> t == u && a == b
  }

  /** A chunk row of an operation of a task: audio for the transcription, an extracted
      or recognised text for the recognition; its document, an id of its document. */
  predicate InPlace(layout: Layout, taskId: string, op: Operation, r: ChunkRow) {
    && r.taskId == taskId
    && (if op == F1 then r.sourceType == "audio"
        else op == F2 && (r.sourceType == "pdf_extracted" || r.sourceType == "image"))
    && r.documentId == layout.document(taskId, op) && layout.documentOf(r.id) == r.documentId
  }

  /** A save as the agents cause it: summaries and quizzes carry the id of their
      task, chunks their document's, each id once. */
  predicate Proper(layout: Layout, s: Save) {
    match s.op
    case F3 => SummaryRowOf(s.taskId, s.content).id == "sum-" + s.taskId
    case F4 => QuizRowOf(s.taskId, s.content).id == "quiz-" + s.taskId
    case F5 => true
    case F6 => true
    case _ =>
      && ChunksIn(s).Some? && DistinctKeys(ChunkKey, ChunksIn(s).value)
      && forall i :: 0 <= i < |ChunksIn(s).value| ==> InPlace(layout, s.taskId, s.op, ChunksIn(s).value[i])
  }

  predicate AllProper(layout: Layout, saves: seq<Save>) {
    forall i :: 0 <= i < |saves| ==> Proper(layout, saves[i])
  }

  function SummaryBatches(saves: seq<Save>): seq<Batch<SummaryRow>> {
    if saves == [] then []
    else
      var s := saves[|saves| - 1];
      SummaryBatches(saves[..|saves| - 1]) +
        if s.op == F3 then [Batch("sum-" + s.taskId, [SummaryRowOf(s.taskId, s.content)])] else []
  }

  function QuizBatches(saves: seq<Save>): seq<Batch<QuizRow>> {
    if saves == [] then []
    else
      var s := saves[|saves| - 1];
      QuizBatches(saves[..|saves| - 1]) +
        if s.op == F4 then [Batch("quiz-" + s.taskId, [QuizRowOf(s.taskId, s.content)])] else []
  }

  /** Merging a row under its owner's one id replaces the rows of the owner. */
  lemma MergeIsReplacement<R>(kind: Kind<R>, table: map<string, R>, row: R)
    requires kind.claim == Itself && Sound(kind, table) && kind.key(row) == kind.owner(row)
    ensures GoodBatch(kind, Batch(kind.owner(row), [row]))
    ensures Replaced(kind, table, Batch(kind.owner(row), [row])) == Some(table[kind.key(row) := row])
  {
    var o := kind.owner(row);
    var others := WithoutOwner(kind.owner, table, o);
    assert AddAll(others, kind.key, []) == Some(others);
    assert [row][..0] == [];
    assert others[o := row] == table[o := row];
  }

  lemma TablesAfter(saves: seq<Save>)
    requires saves != []
    ensures var s, before, after := saves[|saves| - 1], AfterSaves(saves[..|saves| - 1]), AfterSaves(saves);
      && after.summaries == (if s.op == F3 then
           before.summaries[SummaryRowOf(s.taskId, s.content).id := SummaryRowOf(s.taskId, s.content)]
         else before.summaries)
      && after.quizzes == (if s.op == F4 then
           before.quizzes[QuizRowOf(s.taskId, s.content).id := QuizRowOf(s.taskId, s.content)]
         else before.quizzes)
      && after.chunks == (if (s.op == F1 || s.op == F2) && SavedChunks(before.chunks, s.taskId, s.content).Some? then
           SavedChunks(before.chunks, s.taskId, s.content).value
         else before.chunks)
  {
    hide SummaryRowOf, QuizRowOf, SavedChunks, SavedTerms, SavedCitations;
  }

  lemma {:induction false} SummariesFollow(layout: Layout, saves: seq<Save>)
    requires AllProper(layout, saves)
    ensures AllGood(SUMMARIES, SummaryBatches(saves))
    ensures AfterSaves(saves).summaries == AfterBatches(SUMMARIES, SummaryBatches(saves))
  {
    if saves != [] {
      var s, front := saves[|saves| - 1], saves[..|saves| - 1];
      SummariesFollow(layout, front);
      TablesAfter(saves);
      assert Proper(layout, s);
      hide AfterSaves, AfterBatches, GoodBatch, Sound, SummaryRowOf;
      if s.op == F3 {
        var row := SummaryRowOf(s.taskId, s.content);
        LastBatchStands(SUMMARIES, SummaryBatches(front), "");
        MergeIsReplacement(SUMMARIES, AfterSaves(front).summaries, row);
        BatchesNext(SUMMARIES, SummaryBatches(front), Batch("sum-" + s.taskId, [row]));
      } else {
        assert SummaryBatches(saves) == SummaryBatches(front);
      }
    }
  }

  lemma {:induction false} QuizzesFollow(layout: Layout, saves: seq<Save>)
    requires AllProper(layout, saves)
    ensures AllGood(QUIZZES, QuizBatches(saves))
    ensures AfterSaves(saves).quizzes == AfterBatches(QUIZZES, QuizBatches(saves))
  {
    if saves != [] {
      var s, front := saves[|saves| - 1], saves[..|saves| - 1];
      QuizzesFollow(layout, front);
      TablesAfter(saves);
      assert Proper(layout, s);
      hide AfterSaves, AfterBatches, GoodBatch, Sound, QuizRowOf;
      if s.op == F4 {
        var row := QuizRowOf(s.taskId, s.content);
        LastBatchStands(QUIZZES, QuizBatches(front), "");
        MergeIsReplacement(QUIZZES, AfterSaves(front).quizzes, row);
        BatchesNext(QUIZZES, QuizBatches(front), Batch("quiz-" + s.taskId, [row]));
      } else {
        assert QuizBatches(saves) == QuizBatches(front);
      }
    }
  }

  lemma {:induction false} LastSummary(saves: seq<Save>, taskId: string)
    ensures var last := LastSave(saves, taskId, F3);
      LastRows(SummaryBatches(saves), "sum-" + taskId) ==
        if last.Some? then [SummaryRowOf(taskId, last.value.content)] else []
  {
    if saves != [] {
      var s, front := saves[|saves| - 1], saves[..|saves| - 1];
      LastSummary(front, taskId);
      SamePrefix("sum-", s.taskId, taskId);
      LastRowsNext(SummaryBatches(front), Batch("sum-" + s.taskId, [SummaryRowOf(s.taskId, s.content)]), "sum-" + taskId);
    }
  }

  lemma {:induction false} LastQuiz(saves: seq<Save>, taskId: string)
    ensures var last := LastSave(saves, taskId, F4);
      LastRows(QuizBatches(saves), "quiz-" + taskId) ==
        if last.Some? then [QuizRowOf(taskId, last.value.content)] else []
  {
    if saves != [] {
      var s, front := saves[|saves| - 1], saves[..|saves| - 1];
      LastQuiz(front, taskId);
      SamePrefix("quiz-", s.taskId, taskId);
      LastRowsNext(QuizBatches(front), Batch("quiz-" + s.taskId, [QuizRowOf(s.taskId, s.content)]), "quiz-" + taskId);
    }
  }

  lemma ListingOfOne<R>(key: R -> string, row: R)
    ensures Listing(TableOf(key, [row])) == [row]
    ensures TableOf(key, []) == map[] && Listing<R>(map[]) == []
  {
    ListingKeepsOrder(key, [row]);
    ListingKeepsOrder(key, []);
  }

  /** The tables hold the last saved summary, and only one. */
  lemma SummaryIsDurable(layout: Layout, saves: seq<Save>, taskId: string)
    requires AllProper(layout, saves)
    ensures |RowsOf(SummaryTask, AfterSaves(saves).summaries, taskId)| <= 1
    ensures var last := LastSave(saves, taskId, F3);
      Stored(AfterSaves(saves), taskId, F3) ==
      if last.None? then None else Some(SummaryContent(SummaryRowOf(taskId, last.value.content)))
  {
    hide AfterSaves, AfterBatches, GoodBatch, Sound, SummaryRowOf, SummaryContent, LastSave;
    SummariesFollow(layout, saves);
    LastSummary(saves, taskId);
    LastBatchStands(SUMMARIES, SummaryBatches(saves), "sum-" + taskId);
    var table := AfterSaves(saves).summaries;
    forall id | id in table ensures table[id].taskId == taskId <==> SummaryOwner(table[id]) == "sum-" + taskId {
      SamePrefix("sum-", table[id].taskId, taskId);
    }
    assert Of(SummaryTask, table, taskId) == Of(SummaryOwner, table, "sum-" + taskId);
    var last := LastSave(saves, taskId, F3);
    ListingOfOne(SummaryKey, SummaryRowOf(taskId, if last.Some? then last.value.content else map[]));
  }

  /** The same for quizzes. */
  lemma QuizIsDurable(layout: Layout, saves: seq<Save>, taskId: string)
    requires AllProper(layout, saves)
    ensures |RowsOf(QuizTask, AfterSaves(saves).quizzes, taskId)| <= 1
    ensures var last := LastSave(saves, taskId, F4);
      Stored(AfterSaves(saves), taskId, F4) ==
      if last.None? then None else Some(QuizContent(QuizRowOf(taskId, last.value.content)))
  {
    hide AfterSaves, AfterBatches, GoodBatch, Sound, QuizRowOf, QuizContent, LastSave;
    QuizzesFollow(layout, saves);
    LastQuiz(saves, taskId);
    LastBatchStands(QUIZZES, QuizBatches(saves), "quiz-" + taskId);
    var table := AfterSaves(saves).quizzes;
    forall id | id in table ensures table[id].taskId == taskId <==> QuizOwner(table[id]) == "quiz-" + taskId {
      SamePrefix("quiz-", table[id].taskId, taskId);
    }
    assert Of(QuizTask, table, taskId) == Of(QuizOwner, table, "quiz-" + taskId);
    var last := LastSave(saves, taskId, F4);
    ListingOfOne(QuizKey, QuizRowOf(taskId, if last.Some? then last.value.content else map[]));
  }

  // ----- Chunks -----

  function Chunks(layout: Layout): Kind<ChunkRow> {
    Kind(ChunkKey, ChunkDocument, layout.documentOf)
  }

  predicate IsChunkSave(s: Save) {
    s.op == F1 || s.op == F2
  }

  function ChunkBatches(layout: Layout, saves: seq<Save>): seq<Batch<ChunkRow>> {
    if saves == [] then []
    else
      var s := saves[|saves| - 1];
      ChunkBatches(layout, saves[..|saves| - 1]) +
        if IsChunkSave(s) && Effective(s) then [Batch(layout.document(s.taskId, s.op), ChunksIn(s).value)] else []
  }

  /** Every stored chunk row is in place for some operation of its task. */
  predicate AllInPlace(layout: Layout, table: map<string, ChunkRow>) {
    forall id :: id in table ==> Settled(layout, table[id])
  }

  predicate Settled(layout: Layout, r: ChunkRow) {
    InPlace(layout, r.taskId, F1, r) || InPlace(layout, r.taskId, F2, r)
  }

  lemma SaveOfChunks(layout: Layout, table: map<string, ChunkRow>, s: Save)
    requires Proper(layout, s) && IsChunkSave(s) && Sound(Chunks(layout), table) && AllInPlace(layout, table)
    ensures SavedChunks(table, s.taskId, s.content).Some?
    ensures var after := SavedChunks(table, s.taskId, s.content).value;
      && AllInPlace(layout, after)
      && (!Effective(s) ==> after == table)
      && (Effective(s) ==> var b := Batch(layout.document(s.taskId, s.op), ChunksIn(s).value);
           GoodBatch(Chunks(layout), b) && Replaced(Chunks(layout), table, b) == Some(after))
  {
    var rows, o := ChunksIn(s).value, layout.document(s.taskId, s.op);
    var kept := map id | id in table && table[id].documentId !in DocumentsOf(rows) :: table[id];
    if rows == [] {
      assert kept == table;
    } else {
      assert rows[0] in rows;
      assert DocumentsOf(rows) == {o};
      assert kept == WithoutOwner(ChunkDocument, table, o);
      var b := Batch(o, rows);
      assert GoodBatch(Chunks(layout), b);
      GoodBatchReplaces(Chunks(layout), table, b);
      NewRowsInPlace(layout, table, s);
    }
  }

  lemma NewRowsInPlace(layout: Layout, table: map<string, ChunkRow>, s: Save)
    requires Proper(layout, s) && IsChunkSave(s) && AllInPlace(layout, table)
    ensures AllInPlace(layout, WithoutOwner(ChunkDocument, table, layout.document(s.taskId, s.op)) + TableOf(ChunkKey, ChunksIn(s).value))
  {
    var rows := ChunksIn(s).value;
    TableOfRows(ChunkKey, rows);
    forall id | id in TableOf(ChunkKey, rows) ensures Settled(layout, TableOf(ChunkKey, rows)[id]) {
      var r := TableOf(ChunkKey, rows)[id];
      var i :| 0 <= i < |rows| && rows[i] == r;
      assert InPlace(layout, s.taskId, s.op, rows[i]);
    }
  }

  lemma {:induction false} ChunksFollow(layout: Layout, saves: seq<Save>)
    requires AllProper(layout, saves)
    ensures AllGood(Chunks(layout), ChunkBatches(layout, saves))
    ensures AfterSaves(saves).chunks == AfterBatches(Chunks(layout), ChunkBatches(layout, saves))
    ensures AllInPlace(layout, AfterSaves(saves).chunks)
  {
    if saves != [] {
      var s, front := saves[|saves| - 1], saves[..|saves| - 1];
      ChunksFollow(layout, front);
      TablesAfter(saves);
      assert Proper(layout, s);
      LastBatchStands(Chunks(layout), ChunkBatches(layout, front), "");
      hide AfterSaves, AfterBatches, GoodBatch, Sound, SavedChunks, Proper, AllInPlace;
      if IsChunkSave(s) {
        SaveOfChunks(layout, AfterSaves(front).chunks, s);
        if Effective(s) {
          BatchesNext(Chunks(layout), ChunkBatches(layout, front),
                      Batch(layout.document(s.taskId, s.op), ChunksIn(s).value));
        }
      }
      assert ChunkBatches(layout, front) + [] == ChunkBatches(layout, front);
    }
  }

  lemma {:induction false} LastChunks(layout: Layout, saves: seq<Save>, taskId: string, op: Operation)
    requires WellLaidOut(layout) && (op == F1 || op == F2)
    ensures var last := LastSave(saves, taskId, op);
      LastRows(ChunkBatches(layout, saves), layout.document(taskId, op)) ==
        if last.Some? then ChunksIn(last.value).value else []
  {
    if saves != [] {
      var s, front := saves[|saves| - 1], saves[..|saves| - 1];
      LastChunks(layout, front, taskId, op);
      hide ChunksIn;
      if IsChunkSave(s) && Effective(s) {
        var b := Batch(layout.document(s.taskId, s.op), ChunksIn(s).value);
        LastRowsNext(ChunkBatches(layout, front), b, layout.document(taskId, op));
      } else {
        assert ChunkBatches(layout, saves) == ChunkBatches(layout, front);
      }
    }
  }

  lemma {:induction false} InBucketOrder(rows: seq<ChunkRow>, op: Operation)
    requires InOrder(ChunkKey, rows)
    ensures InOrder(ChunkKey, InBucket(rows, op))
    ensures forall r :: r in InBucket(rows, op) <==> r in rows && BucketOf(r.sourceType) == Some(op)
  {
    if rows != [] {
      var n := |rows| - 1;
      var before, r := InBucket(rows[..n], op), rows[n];
      assert rows == rows[..n] + [r];
      InBucketOrder(rows[..n], op);
      hide Before;
      forall i | 0 <= i < |before| ensures Before(before[i].id, r.id) {
        assert before[i] in before;
        var k :| 0 <= k < n && rows[..n][k] == before[i];
        assert Before(ChunkKey(rows[k]), ChunkKey(rows[n]));
      }
      BucketNext(before, r, op);
    }
  }

  lemma BucketNext(before: seq<ChunkRow>, r: ChunkRow, op: Operation)
    requires InOrder(ChunkKey, before) && forall i :: 0 <= i < |before| ==> Before(before[i].id, r.id)
    ensures InOrder(ChunkKey, before + [r]) && before + [] == before
  {
    hide Before;
  }

  /** The rows of one origin, listed, are the rows of one document, listed. */
  lemma BucketIsDocument(layout: Layout, table: map<string, ChunkRow>, taskId: string, op: Operation)
    requires WellLaidOut(layout) && Sound(Chunks(layout), table) && AllInPlace(layout, table) && (op == F1 || op == F2)
    ensures InBucket(RowsOf(ChunkTask, table, taskId), op)
         == Listing(Of(ChunkDocument, table, layout.document(taskId, op)))
  {
    var own, document := Of(ChunkTask, table, taskId), Of(ChunkDocument, table, layout.document(taskId, op));
    var rows := InBucket(Listing(own), op);
    ListingOf(own);
    ListingSorted(own);
    InBucketOrder(Listing(own), op);
    forall r | true ensures r in rows <==> r.id in document && document[r.id] == r {
      OwnRow(own, r);
      if r.id in table && table[r.id] == r {
        DocumentRow(layout, table, taskId, op, r);
      }
    }
    SameTable(rows, document);
    ListingKeepsOrder(ChunkKey, rows);
  }

  lemma ListingSorted(table: map<string, ChunkRow>)
    requires forall id :: id in table ==> table[id].id == id
    ensures InOrder(ChunkKey, Listing(table))
  {
    ListingOf(table);
    hide Before, Listing;
  }

  lemma OwnRow(own: map<string, ChunkRow>, r: ChunkRow)
    requires forall id :: id in own ==> own[id].id == id
    ensures r in Listing(own) <==> r.id in own && own[r.id] == r
  {
    ListingOf(own);
    hide Listing;
    var ids := Ordered(own.Keys);
    if r.id in own && own[r.id] == r {
      var i :| 0 <= i < |ids| && ids[i] == r.id;
      assert Listing(own)[i] == r;
    }
    if r in Listing(own) {
      var i :| 0 <= i < |ids| && Listing(own)[i] == r;
      assert ids[i] in own;
    }
  }

  lemma DocumentRow(layout: Layout, table: map<string, ChunkRow>, taskId: string, op: Operation, r: ChunkRow)
    requires WellLaidOut(layout) && AllInPlace(layout, table) && (op == F1 || op == F2)
    requires r.id in table && table[r.id] == r
    ensures r.taskId == taskId && BucketOf(r.sourceType) == Some(op) <==> r.documentId == layout.document(taskId, op)
  {
    assert Settled(layout, r);
  }

  lemma SameTable(rows: seq<ChunkRow>, table: map<string, ChunkRow>)
    requires InOrder(ChunkKey, rows) && forall id :: id in table ==> table[id].id == id
    requires forall r :: r in rows <==> r.id in table && table[r.id] == r
    ensures TableOf(ChunkKey, rows) == table
  {
    OrderDistinct(ChunkKey, rows);
    TableOfRows(ChunkKey, rows);
    hide TableOf, InOrder, DistinctKeys;
    var made := TableOf(ChunkKey, rows);
    forall id | id in table ensures id in made && made[id] == table[id] {
      assert table[id] in rows;
      var i :| 0 <= i < |rows| && rows[i] == table[id];
    }
    forall id | id in made ensures id in table {
      assert made[id] in rows;
    }
  }

  /** The tables hold, for an ingestion, the chunks of the last save that had any,
      in the order of their ids. */
  lemma ChunksAreDurable(layout: Layout, saves: seq<Save>, taskId: string, op: Operation)
    requires WellLaidOut(layout) && AllProper(layout, saves) && (op == F1 || op == F2)
    ensures AllKnown(RowsOf(ChunkTask, AfterSaves(saves).chunks, taskId))
    ensures var last := LastSave(saves, taskId, op);
      Stored(AfterSaves(saves), taskId, op) ==
      if last.None? then None else Some(ChunksContent(Listing(TableOf(ChunkKey, ChunksIn(last.value).value))))
  {
    var table, o := AfterSaves(saves).chunks, layout.document(taskId, op);
    ChunksFollow(layout, saves);
    LastChunks(layout, saves, taskId, op);
    LastBatchStands(Chunks(layout), ChunkBatches(layout, saves), o);
    BucketIsDocument(layout, table, taskId, op);
    AllAreKnown(layout, table, taskId);
    LastIsListed(layout, saves, taskId, op);
  }

  lemma AllAreKnown(layout: Layout, table: map<string, ChunkRow>, taskId: string)
    requires AllInPlace(layout, table)
    ensures AllKnown(RowsOf(ChunkTask, table, taskId))
  {
    var own := Of(ChunkTask, table, taskId);
    ListingOf(own);
    forall i | 0 <= i < |Listing(own)| ensures BucketOf(Listing(own)[i].sourceType).Some? {
      assert Settled(layout, table[Ordered(own.Keys)[i]]);
    }
  }

  lemma LastIsListed(layout: Layout, saves: seq<Save>, taskId: string, op: Operation)
    requires AllProper(layout, saves) && (op == F1 || op == F2)
    ensures var last := LastSave(saves, taskId, op);
      if last.Some? then Listing(TableOf(ChunkKey, ChunksIn(last.value).value)) != []
      else Listing(TableOf(ChunkKey, [])) == []
  {
    var last := LastSave(saves, taskId, op);
    if last.Some? {
      var i :| 0 <= i < |saves| && saves[i] == last.value;
      assert Proper(layout, saves[i]);
      ListingIsComplete(ChunkKey, ChunksIn(last.value).value);
    } else {
      ListingKeepsOrder(ChunkKey, []);
    }
  }

  // ----- Recovery -----

  /** After any proper saves recovery succeeds for every task. */
  lemma RecoverySucceeds(layout: Layout, saves: seq<Save>, taskId: string)
    requires WellLaidOut(layout) && AllProper(layout, saves)
    ensures Loadable(AfterSaves(saves), taskId)
  {
    ChunksAreDurable(layout, saves, taskId, F1);
    SummaryIsDurable(layout, saves, taskId);
    QuizIsDurable(layout, saves, taskId);
  }

  /** A reloaded result was saved before, for that operation of that task. */
  lemma ReloadedWasSaved(layout: Layout, saves: seq<Save>, taskId: string, results: map<Id, Content>, id: Id)
    requires WellLaidOut(layout) && AllProper(layout, saves)
    requires Loads(AfterSaves(saves), taskId, results, ALL_OPERATIONS) && id in results
    ensures exists s :: s in saves && s.taskId == taskId && id == SubtaskIdFor(taskId, s.op)
  {
    var op :| op in ALL_OPERATIONS && id == SubtaskIdFor(taskId, op);
    StoredWasSaved(layout, saves, taskId, op);
    assert Lookup(results, SubtaskIdFor(taskId, op)) == Stored(AfterSaves(saves), taskId, op);
    var last := LastSave(saves, taskId, op);
    assert last.value in saves && last.value.taskId == taskId;
  }

  /** What is reloaded for an ingestion is what it saved last, under its own id. */
  lemma ReloadedChunks(layout: Layout, saves: seq<Save>, taskId: string, results: map<Id, Content>)
    requires WellLaidOut(layout) && AllProper(layout, saves)
    requires Loads(AfterSaves(saves), taskId, results, ALL_OPERATIONS)
    ensures HasLastChunks(results, "st-" + taskId + "-" + "F1", LastSave(saves, taskId, F1))
    ensures HasLastChunks(results, "st-" + taskId + "-" + "F2", LastSave(saves, taskId, F2))
  {
    hide AfterSaves, Stored, WellLaidOut, AllProper, LastSave, ChunksIn, ChunksContent, Listing, TableOf, AllKnown;
    NamesOf(taskId);
    ChunksAreDurable(layout, saves, taskId, F1);
    ChunksAreDurable(layout, saves, taskId, F2);
    assert F1 in ALL_OPERATIONS && F2 in ALL_OPERATIONS;
  }

  /** The chunks of the save under the given id, in the order of their ids. */
  ghost predicate HasLastChunks(results: map<Id, Content>, id: Id, last: Option<Save>) {
    if last.None? then id !in results
    else
      && id in results && ChunksIn(last.value).Some?
      && results[id] == ChunksContent(Listing(TableOf(ChunkKey, ChunksIn(last.value).value)))
  }

  lemma StoredWasSaved(layout: Layout, saves: seq<Save>, taskId: string, op: Operation)
    requires WellLaidOut(layout) && AllProper(layout, saves)
    ensures Stored(AfterSaves(saves), taskId, op).Some? ==> LastSave(saves, taskId, op).Some?
  {
    match op
    case F1 => ChunksAreDurable(layout, saves, taskId, F1);
    case F2 => ChunksAreDurable(layout, saves, taskId, F2);
    case F3 => SummaryIsDurable(layout, saves, taskId);
    case F4 => QuizIsDurable(layout, saves, taskId);
    case F5 => TermsAreDurable(saves, taskId);
    case F6 => CitationsAreDurable(saves, taskId);
  }

  // ----- Contents as the agents make them come back unchanged -----

  lemma SummaryIsRecovered(layout: Layout, saves: seq<Save>, taskId: string,
                           introduction: string, thesis: string, conclusion: string, ids: seq<Json>)
    requires AllProper(layout, saves)
    requires var last := LastSave(saves, taskId, F3);
      last.Some? && last.value.content == MadeSummary(taskId, introduction, thesis, conclusion, ids)
    ensures Stored(AfterSaves(saves), taskId, F3) == Some(MadeSummary(taskId, introduction, thesis, conclusion, ids))
  {
    SummaryIsDurable(layout, saves, taskId);
    SummaryRoundTrip(taskId, introduction, thesis, conclusion, ids);
  }

  lemma QuizIsRecovered(layout: Layout, saves: seq<Save>, taskId: string, content: Content)
    requires AllProper(layout, saves)
    requires var last := LastSave(saves, taskId, F4); last.Some? && last.value.content == content
    requires content.Keys == {"quiz_id", "questions", "difficulty"}
    requires content["quiz_id"] == JStr("quiz-" + taskId) && content["questions"].JList?
    ensures Stored(AfterSaves(saves), taskId, F4) == Some(content)
  {
    QuizIsDurable(layout, saves, taskId);
    QuizRoundTrip(taskId, content);
  }

  lemma {:induction false} ChunkRowAt(taskId: string, chunks: seq<Json>, i: nat)
    requires (forall k :: 0 <= k < |chunks| ==> IsChunk(taskId, chunks[k])) && i < |chunks|
    ensures ChunkRowsOf(taskId, chunks).Some? && |ChunkRowsOf(taskId, chunks).value| == |chunks|
    ensures ChunkItem(ChunkRowsOf(taskId, chunks).value[i]) == chunks[i]
  {
    hide IsChunk, ChunkItem, ChunkRowsOf;
    var n := |chunks| - 1;
    NothingChunked(taskId, chunks);
    if i < n {
      ChunkRowAt(taskId, chunks[..n], i);
    } else if n > 0 {
      ChunkRowAt(taskId, chunks[..n], n - 1);
    }
    ChunkRowsNext(taskId, chunks);
  }

  lemma NothingChunked(taskId: string, chunks: seq<Json>)
    requires chunks != []
    ensures |chunks| == 1 ==> ChunkRowsOf(taskId, chunks[..|chunks| - 1]) == Some([])
  {
  }

  lemma ChunkRowsNext(taskId: string, chunks: seq<Json>)
    requires chunks != [] && IsChunk(taskId, chunks[|chunks| - 1])
    requires ChunkRowsOf(taskId, chunks[..|chunks| - 1]).Some?
    ensures ChunkRowsOf(taskId, chunks).Some?
    ensures var before, rows := ChunkRowsOf(taskId, chunks[..|chunks| - 1]).value, ChunkRowsOf(taskId, chunks).value;
      |rows| == |before| + 1 && rows[..|before|] == before && ChunkItem(rows[|before|]) == chunks[|chunks| - 1]
  {
    ChunkRoundTrip(taskId, chunks[|chunks| - 1]);
    hide ChunkItem;
  }

  /** Chunks whose ids ascend are recovered as they were saved; what is dropped is
      the rest of the content, such as the language. */
  lemma ChunksAreRecovered(layout: Layout, saves: seq<Save>, taskId: string, op: Operation, chunks: seq<Json>)
    requires WellLaidOut(layout) && AllProper(layout, saves) && (op == F1 || op == F2)
    requires var last := LastSave(saves, taskId, op);
      last.Some? && ValueAt(last.value.content, "chunks") == JList(chunks)
    requires forall i :: 0 <= i < |chunks| ==> IsChunk(taskId, chunks[i])
    requires ChunkRowsOf(taskId, chunks).Some? && InOrder(ChunkKey, ChunkRowsOf(taskId, chunks).value)
    ensures Stored(AfterSaves(saves), taskId, op) == Some(map["chunks" := JList(chunks)])
  {
    hide Stored, AfterSaves, IsChunk, Listing, TableOf, ChunksContent, LastSave, WellLaidOut, AllProper, ChunkRowsOf, InOrder;
    ChunksAreDurable(layout, saves, taskId, op);
    var rows := ChunkRowsOf(taskId, chunks).value;
    ListingKeepsOrder(ChunkKey, rows);
    ChunkItems(taskId, chunks);
  }

  lemma ChunkItems(taskId: string, chunks: seq<Json>)
    requires forall i :: 0 <= i < |chunks| ==> IsChunk(taskId, chunks[i])
    ensures ChunkRowsOf(taskId, chunks).Some? && ChunksContent(ChunkRowsOf(taskId, chunks).value) == map["chunks" := JList(chunks)]
  {
    hide IsChunk, ChunkItem, ChunkRowOf;
    if chunks != [] {
      ChunkRowAt(taskId, chunks, 0);
    }
    var rows := ChunkRowsOf(taskId, chunks).value;
    var items := seq(|rows|, i requires 0 <= i < |rows| => ChunkItem(rows[i]));
    forall i | 0 <= i < |chunks| ensures items[i] == chunks[i] {
      ChunkRowAt(taskId, chunks, i);
    }
    assert items == chunks;
  }

  /** Numbered ids ascend with their numbers up to nine, and not beyond. */
  lemma NumberedOrder(prefix: string, i: nat, j: nat)
    requires i < j < 10
    ensures Before(prefix + "-" + Decimal(i), prefix + "-" + Decimal(j))
    ensures Before(prefix + "-" + Decimal(10), prefix + "-" + Decimal(2))
  {
    OneDigitOrder(i, j);
    BeforeAfterPrefix(prefix + "-", Decimal(i), Decimal(j));
    assert Decimal(10) == Decimal(1) + ['0'] && Decimal(1) == ['1'] && Decimal(2) == ['2'];
    assert Decimal(10) == ['1', '0'];
    BeforeAfterPrefix(prefix + "-", Decimal(10), Decimal(2));
  }
}
