/** Request contents (src/agents/payloads.py). */
module Payloads {
  import opened Basics
  import opened Plans

  /** The `results` map of a task: None marks a subtask that failed. */
  type Results = map<Id, Option<Content>>

  function ResultOf(results: Results, id: Id): Option<Content> {
    if id in results then results[id] else None
  }

  /** `_content`: the upstream content, or an empty dictionary. */
  function ContentOf(results: Results, taskId: string, op: Operation): Content {
    match ResultOf(results, SubtaskIdFor(taskId, op))
    case Some(c) => c
    case None => map[]
  }

  function ListAt(c: Content, key: string): seq<Json> {
    match Lookup<Json>(c, key)
    case Some(JList(items)) => items
    case _ => []
  }

  /** The transcribed chunks followed by the recognised ones. */
  function ChunksOf(results: Results, taskId: string): seq<Json> {
    ListAt(ContentOf(results, taskId, F1), "chunks") + ListAt(ContentOf(results, taskId, F2), "chunks")
  }

  /** The list under a key of an upstream's content; nothing if there is none. */
  predicate ListUnder(items: seq<Json>, results: Results, id: Id, key: string) {
    if id in results && results[id].Some? && key in results[id].value && results[id].value[key].JList? then
      items == results[id].value[key].items
    else
      items == []
  }

  /** One list after the other, element by element. */
  predicate Concatenates(items: seq<Json>, first: seq<Json>, second: seq<Json>) {
    && |items| == |first| + |second|
    && (forall i :: 0 <= i < |first| ==> items[i] == first[i])
    && (forall i :: 0 <= i < |second| ==> items[|first| + i] == second[i])
  }

  /** The transcribed and then the recognised chunks of a task. */
  ghost predicate AllChunks(items: seq<Json>, results: Results, taskId: string) {
    exists transcribed, recognised ::
      && ListUnder(transcribed, results, "st-" + taskId + "-F1", "chunks")
      && ListUnder(recognised, results, "st-" + taskId + "-F2", "chunks")
      && Concatenates(items, transcribed, recognised)
  }

  lemma ChunksAreAll(results: Results, taskId: string)
    ensures AllChunks(ChunksOf(results, taskId), results, taskId)
  {
    var a, b := ListAt(ContentOf(results, taskId, F1), "chunks"), ListAt(ContentOf(results, taskId, F2), "chunks");
    assert SubtaskIdFor(taskId, F1) == "st-" + taskId + "-F1" && SubtaskIdFor(taskId, F2) == "st-" + taskId + "-F2";
    assert ListUnder(a, results, "st-" + taskId + "-F1", "chunks");
    assert ListUnder(b, results, "st-" + taskId + "-F2", "chunks");
    assert Concatenates(a + b, a, b);
  }

  method Chunks(results: Results, taskId: string) returns (chunks: seq<Json>)
    ensures chunks == ChunksOf(results, taskId) && AllChunks(chunks, results, taskId)
  {
    ChunksAreAll(results, taskId);
    hide AllChunks;
    chunks := [];
    var sources := [F1, F2];
    for i := 0 to |sources|
      invariant chunks == if i == 0 then []
                          else if i == 1 then ListAt(ContentOf(results, taskId, F1), "chunks")
                          else ChunksOf(results, taskId)
    {
      var content := ContentOf(results, taskId, sources[i]);
      var raw := Lookup(content, "chunks");
      if raw.Some? && raw.value.JList? {
        chunks := chunks + raw.value.items;
      }
    }
  }

  /** The first document of one of the given types. */
  function FirstDocument(documents: seq<Document>, types: set<DocumentType>): Option<Document> {
    if documents == [] then None
    else if documents[0].documentType in types then Some(documents[0])
    else FirstDocument(documents[1..], types)
  }

  method FindDocument(documents: seq<Document>, types: set<DocumentType>) returns (found: Option<Document>)
    ensures found == FirstDocument(documents, types)
    ensures found.None? <==> forall d :: d in documents ==> d.documentType !in types
  {
    for i := 0 to |documents|
      invariant FirstDocument(documents, types) == FirstDocument(documents[i..], types)
      invariant forall k :: 0 <= k < i ==> documents[k].documentType !in types
    {
      if documents[i].documentType in types {
        return Some(documents[i]);
      }
    }
    return None;
  }

  function DocumentTypeValue(t: DocumentType): string {
    match t
    case Audio => "audio"
    case Image => "image"
    case Pdf => "pdf"
    case Text => "text"
  }

  const SUMMARY_STRUCTURE: Json := JList([JStr("introduction"), JStr("thesis"), JStr("conclusion")])

  /** `build_payload`: the content of the request sent for a subtask. */
  function PayloadFor(st: Subtask, task: Task, results: Results): Content {
    match st.operation
    case F1 =>
      (match FirstDocument(task.documents, {Audio})
       case None => map[]
       case Some(d) => map["document_id" := JStr(d.id), "file_path" := JStr(d.filePath), "language" := JStr("ru")])
    case F2 =>
      (match FirstDocument(task.documents, {Pdf, Image})
       case None => map[]
       case Some(d) => map["document_id" := JStr(d.id), "file_path" := JStr(d.filePath),
                           "document_type" := JStr(DocumentTypeValue(d.documentType))])
    case F3 =>
      map["chunks" := JList(ChunksOf(results, task.id)), "max_length_chars" := JNum(4000.0),
          "structure" := SUMMARY_STRUCTURE]
    case F5 =>
      map["chunks" := JList(ChunksOf(results, task.id)), "top_n" := JNum(10.0)]
    case F4 =>
      map["summary" := JObj(ContentOf(results, task.id, F3)), "num_questions" := JNum(5.0),
          "difficulty" := JStr("medium")]
    case F6 =>
      map["summary" := JObj(ContentOf(results, task.id, F3)),
          "terms" := JList(ListAt(ContentOf(results, task.id, F5), "terms")),
          "n" := JNum(3.0), "filters" := JObj(map[])]
  }

  // ----- What a request shows of its inputs -----

  /** The content of an upstream; the empty one if there is none. */
  predicate ContentUnder(fields: Content, results: Results, id: Id) {
    if id in results && results[id].Some? then fields == results[id].value else fields == map[]
  }

  ghost predicate ShowsChunks(content: Content, task: Task, results: Results) {
    "chunks" in content && content["chunks"].JList? && AllChunks(content["chunks"].items, results, task.id)
  }

  predicate ShowsSummary(content: Content, task: Task, results: Results) {
    "summary" in content && content["summary"].JObj? &&
    ContentUnder(content["summary"].fields, results, "st-" + task.id + "-F3")
  }

  /** The first recording attached to the task. */
  ghost predicate ShowsRecording(content: Content, documents: seq<Document>) {
    if forall d :: d in documents ==> d.documentType != Audio then content == map[]
    else
      exists i :: 0 <= i < |documents| && documents[i].documentType == Audio &&
        (forall j :: 0 <= j < i ==> documents[j].documentType != Audio) &&
        content == map["document_id" := JStr(documents[i].id), "file_path" := JStr(documents[i].filePath),
                       "language" := JStr("ru")]
  }

  /** The first document to be recognised. */
  ghost predicate ShowsScan(content: Content, documents: seq<Document>) {
    if forall d :: d in documents ==> d.documentType != Pdf && d.documentType != Image then content == map[]
    else
      exists i :: 0 <= i < |documents| && (documents[i].documentType == Pdf || documents[i].documentType == Image) &&
        (forall j :: 0 <= j < i ==> documents[j].documentType != Pdf && documents[j].documentType != Image) &&
        content == map["document_id" := JStr(documents[i].id), "file_path" := JStr(documents[i].filePath),
                       "document_type" := JStr(if documents[i].documentType == Pdf then "pdf" else "image")]
  }

  /** What the request for an operation must show of the task and of the results
      of its upstreams. */
  ghost predicate Carries(content: Content, op: Operation, task: Task, results: Results) {
    match op
    case F1 => ShowsRecording(content, task.documents)
    case F2 => ShowsScan(content, task.documents)
    case F3 =>
      && content.Keys == {"chunks", "max_length_chars", "structure"} && ShowsChunks(content, task, results)
      && content["max_length_chars"] == JNum(4000.0)
      && content["structure"] == JList([JStr("introduction"), JStr("thesis"), JStr("conclusion")])
    case F5 =>
      content.Keys == {"chunks", "top_n"} && ShowsChunks(content, task, results) && content["top_n"] == JNum(10.0)
    case F4 =>
      && content.Keys == {"summary", "num_questions", "difficulty"} && ShowsSummary(content, task, results)
      && content["num_questions"] == JNum(5.0) && content["difficulty"] == JStr("medium")
    case F6 =>
      && content.Keys == {"summary", "terms", "n", "filters"} && ShowsSummary(content, task, results)
      && content["terms"].JList? && ListUnder(content["terms"].items, results, "st-" + task.id + "-F5", "terms")
      && content["n"] == JNum(3.0) && content["filters"] == JObj(map[])
  }

  lemma {:induction false} FirstDocumentAt(documents: seq<Document>, types: set<DocumentType>) returns (i: nat)
    requires FirstDocument(documents, types).Some?
    ensures i < |documents| && FirstDocument(documents, types) == Some(documents[i]) && documents[i].documentType in types
    ensures forall j :: 0 <= j < i ==> documents[j].documentType !in types
  {
    if documents[0].documentType in types {
      i := 0;
    } else {
      var k := FirstDocumentAt(documents[1..], types);
      i := k + 1;
    }
  }

  lemma {:induction false} NoDocument(documents: seq<Document>, types: set<DocumentType>)
    ensures FirstDocument(documents, types).None? <==> forall d :: d in documents ==> d.documentType !in types
  {
    if documents != [] {
      assert documents == [documents[0]] + documents[1..];
      NoDocument(documents[1..], types);
    }
  }

  lemma SummaryIsShown(content: Content, task: Task, results: Results)
    requires "summary" in content && content["summary"] == JObj(ContentOf(results, task.id, F3))
    ensures ShowsSummary(content, task, results)
  {
    assert SubtaskIdFor(task.id, F3) == "st-" + task.id + "-F3";
  }

  lemma DocumentsAreShown(task: Task, st: Subtask, results: Results)
    requires st.operation == F1 || st.operation == F2
    ensures Carries(PayloadFor(st, task, results), st.operation, task, results)
  {
    var types := if st.operation == F1 then {Audio} else {Pdf, Image};
    NoDocument(task.documents, types);
    if FirstDocument(task.documents, types).Some? {
      var i := FirstDocumentAt(task.documents, types);
      assert task.documents[i] in task.documents;
    }
  }

  /** Every request built shows what it must. */
  lemma PayloadShowsInputs(st: Subtask, task: Task, results: Results)
    ensures Carries(PayloadFor(st, task, results), st.operation, task, results)
  {
    var content := PayloadFor(st, task, results);
    match st.operation
    case F1 => DocumentsAreShown(task, st, results);
    case F2 => DocumentsAreShown(task, st, results);
    case F3 => ChunksAreAll(results, task.id);
    case F5 => ChunksAreAll(results, task.id);
    case F4 => SummaryIsShown(content, task, results);
    case F6 =>
      SummaryIsShown(content, task, results);
      assert SubtaskIdFor(task.id, F5) == "st-" + task.id + "-F5";
  }

  /** Only the results count, not which subtasks failed or have not answered. */
  lemma SameResultsShown(content: Content, op: Operation, task: Task, a: Results, b: Results)
    requires Carries(content, op, task, a)
    requires forall id :: id in a && a[id].Some? ==> id in b && b[id] == a[id]
    requires forall id :: id in b && b[id].Some? ==> id in a && a[id] == b[id]
    ensures Carries(content, op, task, b)
  {
    if op == F3 || op == F5 {
      var x, y :| ListUnder(x, a, "st-" + task.id + "-F1", "chunks") && ListUnder(y, a, "st-" + task.id + "-F2", "chunks") &&
        Concatenates(content["chunks"].items, x, y);
      assert ListUnder(x, b, "st-" + task.id + "-F1", "chunks") && ListUnder(y, b, "st-" + task.id + "-F2", "chunks");
    }
  }

  method BuildPayload(st: Subtask, task: Task, results: Results) returns (content: Content)
    ensures content == PayloadFor(st, task, results)
    ensures Carries(content, st.operation, task, results)
  {
    PayloadShowsInputs(st, task, results);
    hide Carries;
    match st.operation
    case F1 =>
      var found := FindDocument(task.documents, {Audio});
      if found.None? {
        return map[];
      }
      content := map["document_id" := JStr(found.value.id), "file_path" := JStr(found.value.filePath),
                     "language" := JStr("ru")];
    case F2 =>
      var found := FindDocument(task.documents, {Pdf, Image});
      if found.None? {
        return map[];
      }
      content := map["document_id" := JStr(found.value.id), "file_path" := JStr(found.value.filePath),
                     "document_type" := JStr(DocumentTypeValue(found.value.documentType))];
    case F3 =>
      var chunks := Chunks(results, task.id);
      content := map["chunks" := JList(chunks), "max_length_chars" := JNum(4000.0), "structure" := SUMMARY_STRUCTURE];
    case F5 =>
      var chunks := Chunks(results, task.id);
      content := map["chunks" := JList(chunks), "top_n" := JNum(10.0)];
    case F4 =>
      content := map["summary" := JObj(ContentOf(results, task.id, F3)), "num_questions" := JNum(5.0),
                     "difficulty" := JStr("medium")];
    case F6 =>
      content := map["summary" := JObj(ContentOf(results, task.id, F3)),
                     "terms" := JList(ListAt(ContentOf(results, task.id, F5), "terms")),
                     "n" := JNum(3.0), "filters" := JObj(map[])];
  }

  /** A failed subtask looks to a builder exactly like one that has not answered. */
  lemma PayloadIgnoresFailures(st: Subtask, task: Task, results: Results, id: Id)
    requires id !in results
    ensures PayloadFor(st, task, results[id := None]) == PayloadFor(st, task, results)
  {
    var failed := results[id := None];
    assert forall op :: ContentOf(failed, task.id, op) == ContentOf(results, task.id, op);
    assert ChunksOf(failed, task.id) == ChunksOf(results, task.id);
  }

  lemma UpstreamContentFromDependencies(st: Subtask, task: Task, a: Results, b: Results, op: Operation)
    requires st in BuildPlan(task).subtasks && op in Upstreams(st.operation)
    requires a.Keys <= Ids(BuildPlan(task)) && b.Keys <= Ids(BuildPlan(task))
    requires forall d :: d in st.dependsOn ==> ResultOf(a, d) == ResultOf(b, d)
    ensures ContentOf(a, task.id, op) == ContentOf(b, task.id, op)
  {
    DependenciesAreUpstreamsInPlan(task, st, op);
  }

  /** For a plan made by `BuildPlan`, the request of a subtask depends on the
      results of the subtasks it names in `dependsOn` and on nothing else. */
  lemma PayloadReadsOnlyDependencies(st: Subtask, task: Task, a: Results, b: Results)
    requires st in BuildPlan(task).subtasks
    requires a.Keys <= Ids(BuildPlan(task)) && b.Keys <= Ids(BuildPlan(task))
    requires forall d :: d in st.dependsOn ==> ResultOf(a, d) == ResultOf(b, d)
    ensures PayloadFor(st, task, a) == PayloadFor(st, task, b)
  {
    match st.operation
    case F3 =>
      UpstreamContentFromDependencies(st, task, a, b, F1);
      UpstreamContentFromDependencies(st, task, a, b, F2);
    case F5 =>
      UpstreamContentFromDependencies(st, task, a, b, F1);
      UpstreamContentFromDependencies(st, task, a, b, F2);
    case F4 =>
      UpstreamContentFromDependencies(st, task, a, b, F3);
    case F6 =>
      UpstreamContentFromDependencies(st, task, a, b, F3);
      UpstreamContentFromDependencies(st, task, a, b, F5);
    case _ =>
  }
}
