/** The terminal status of a task and its artifact (src/core/status_fsm.py,
    src/agents/assembly.py). */
module Verdict {
  import opened Basics
  import opened Plans
  import opened Payloads
  import opened Selections

  datatype TaskStatus = PLANNING | RUNNING | PARTIAL_READY | COMPLETED | FAILED

  predicate HasResult(results: Results, st: Subtask) {
    ResultOf(results, st.id).Some?
  }

  function DetermineFinalStatus(plan: Plan, results: Results): TaskStatus {
    if plan.subtasks == [] then COMPLETED
    else if !exists st :: st in plan.subtasks && HasResult(results, st) then FAILED
    else if exists st :: st in plan.subtasks && !HasResult(results, st) then PARTIAL_READY
    else COMPLETED
  }

  datatype FailedOperation = FailedOperation(op: Operation, agent: AgentName, reason: string, retries: nat, elapsed: real)

  datatype ResultPayload = ResultPayload(
    summary: Option<Content>, terms: seq<Json>, quiz: seq<Json>, citations: seq<Json>)

  datatype Artifact = Artifact(
    taskId: string, status: TaskStatus, operations: seq<Operation>, result: ResultPayload,
    degraded: seq<Operation>, duration: real, agentsCalled: nat, messagesExchanged: nat,
    failedOperations: seq<FailedOperation>)

  /** Schema validation of agent contents: it may reject any of them. */
  datatype Schemas = Schemas(
    summary: Content -> bool, term: Json -> bool, question: Json -> bool, citation: Json -> bool)

  /** The operations of the subtasks with (or without) a result, in plan order. */
  function OperationsWhere(subtasks: seq<Subtask>, results: Results, present: bool): seq<Operation> {
    if subtasks == [] then []
    else
      var rest := OperationsWhere(subtasks[1..], results, present);
      if HasResult(results, subtasks[0]) == present then [subtasks[0].operation] + rest else rest
  }

  function OperationsOf(subtasks: seq<Subtask>): seq<Operation> {
    if subtasks == [] then [] else [subtasks[0].operation] + OperationsOf(subtasks[1..])
  }

  /** `operations` and `degraded` split the plan between them. */
  lemma {:induction false} OperationsPartition(subtasks: seq<Subtask>, results: Results)
    ensures multiset(OperationsWhere(subtasks, results, true)) + multiset(OperationsWhere(subtasks, results, false))
         == multiset(OperationsOf(subtasks))
  {
    if subtasks != [] {
      var have, lack := OperationsWhere(subtasks[1..], results, true), OperationsWhere(subtasks[1..], results, false);
      var op := subtasks[0].operation;
      OperationsPartition(subtasks[1..], results);
      assert multiset([op] + have) == multiset{op} + multiset(have);
      assert multiset([op] + lack) == multiset{op} + multiset(lack);
      assert multiset([op] + OperationsOf(subtasks[1..])) == multiset{op} + multiset(OperationsOf(subtasks[1..]));
    }
  }

  lemma {:induction false} OperationsEmpty(subtasks: seq<Subtask>, results: Results, present: bool)
    ensures OperationsWhere(subtasks, results, present) == [] <==>
      forall st :: st in subtasks ==> HasResult(results, st) != present
  {
    if subtasks != [] {
      assert forall st :: st in subtasks <==> st == subtasks[0] || st in subtasks[1..];
      OperationsEmpty(subtasks[1..], results, present);
    }
  }

  /** The status is COMPLETED exactly when nothing is degraded, and FAILED
      exactly when a non-empty plan yielded nothing. */
  lemma StatusMatchesOperations(plan: Plan, results: Results)
    ensures var status := DetermineFinalStatus(plan, results);
      && (status == COMPLETED <==> OperationsWhere(plan.subtasks, results, false) == [])
      && (status == FAILED <==> plan.subtasks != [] && OperationsWhere(plan.subtasks, results, true) == [])
      && (status == PARTIAL_READY <==>
            OperationsWhere(plan.subtasks, results, true) != [] && OperationsWhere(plan.subtasks, results, false) != [])
  {
    OperationsEmpty(plan.subtasks, results, true);
    OperationsEmpty(plan.subtasks, results, false);
    if plan.subtasks != [] {
      assert plan.subtasks[0] in plan.subtasks;
    }
  }

  /** The subtask has an entry in the results, and it is a content. */
  predicate Returned(results: Results, st: Subtask) {
    st.id in results && results[st.id].Some?
  }

  /** The status, told from the results: COMPLETED if nothing is missing, FAILED if
      everything is, PARTIAL_READY otherwise; an empty plan is COMPLETED. */
  lemma StatusByResults(plan: Plan, results: Results)
    ensures var status := DetermineFinalStatus(plan, results);
      && (status == COMPLETED <==> forall st :: st in plan.subtasks ==> Returned(results, st))
      && (status == FAILED <==> plan.subtasks != [] && forall st :: st in plan.subtasks ==> !Returned(results, st))
      && (status == PARTIAL_READY <==>
            (exists st :: st in plan.subtasks && Returned(results, st)) &&
            (exists st :: st in plan.subtasks && !Returned(results, st)))
  {
    assert forall st :: HasResult(results, st) <==> Returned(results, st);
    if plan.subtasks != [] {
      assert plan.subtasks[0] in plan.subtasks;
    }
  }

  /** An operation is listed as done (or degraded) if one of its entries has (or
      lacks) a result. */
  lemma {:induction false} OperationsByResults(subtasks: seq<Subtask>, results: Results, op: Operation)
    ensures op in OperationsWhere(subtasks, results, true) <==>
      exists st :: st in subtasks && st.operation == op && Returned(results, st)
    ensures op in OperationsWhere(subtasks, results, false) <==>
      exists st :: st in subtasks && st.operation == op && !Returned(results, st)
  {
    if subtasks != [] {
      assert subtasks == [subtasks[0]] + subtasks[1..];
      OperationsByResults(subtasks[1..], results, op);
    }
  }

  /** The positions of the subtasks that have (or lack) a result. */
  ghost function ReturnedAt(subtasks: seq<Subtask>, results: Results, present: bool): set<int> {
    set i | 0 <= i < |subtasks| && Returned(results, subtasks[i]) == present
  }

  /** The lists of done and degraded operations are in plan order, repetitions included. */
  lemma {:induction false} OperationsInOrder(subtasks: seq<Subtask>, results: Results, present: bool)
    ensures Selects(OperationsWhere(subtasks, results, present), OperationsOf(subtasks), ReturnedAt(subtasks, results, present))
  {
    var wanted := ReturnedAt(subtasks, results, present);
    if subtasks == [] {
      NothingSelected<Operation>(wanted);
    } else {
      var rest := subtasks[1..];
      OperationsInOrder(rest, results, present);
      AsManyOperations(rest);
      ReturnedBefore(subtasks, results, present);
      hide Selects, ReturnedAt, Returned;
      SelectsBefore(OperationsWhere(rest, results, present), OperationsOf(rest), ReturnedAt(rest, results, present),
                    subtasks[0].operation, wanted);
    }
  }

  lemma ReturnedBefore(subtasks: seq<Subtask>, results: Results, present: bool)
    requires subtasks != []
    ensures var here, later := ReturnedAt(subtasks, results, present), ReturnedAt(subtasks[1..], results, present);
      && (forall i :: i in here && i != 0 <==> i - 1 in later && i != 0) && -1 !in later
      && (0 in here <==> HasResult(results, subtasks[0]) == present)
  {
    assert forall i :: 0 < i < |subtasks| ==> subtasks[i] == subtasks[1..][i - 1];
  }

  lemma {:induction false} AsManyOperations(subtasks: seq<Subtask>)
    ensures |OperationsOf(subtasks)| == |subtasks|
    ensures forall i :: 0 <= i < |subtasks| ==> OperationsOf(subtasks)[i] == subtasks[i].operation
  {
    if subtasks != [] {
      AsManyOperations(subtasks[1..]);
    }
  }

  /** A plan follows the request: its subtasks are those of the admissible operations,
      in the order of the request. */
  lemma PlanFollowsRequest(task: Task)
    ensures Selects(OperationsOf(BuildPlan(task).subtasks), task.requestedOutputs, EligibleAt(task, task.requestedOutputs))
  {
    var subtasks, eligible := BuildPlan(task).subtasks, Eligible(task, task.requestedOutputs);
    EligibleInOrder(task, task.requestedOutputs);
    AsManyOperations(subtasks);
    assert OperationsOf(subtasks) == eligible;
  }

  /** Only which subtasks have a result matters for the status. */
  lemma StatusFromSuccesses(plan: Plan, a: Results, b: Results)
    requires forall st :: st in plan.subtasks ==> (HasResult(a, st) <==> HasResult(b, st))
    ensures DetermineFinalStatus(plan, a) == DetermineFinalStatus(plan, b)
  {
  }

  // ----- The result payload -----

  predicate ValidItems(items: seq<Json>, valid: Json -> bool) {
    forall item :: item in items ==> valid(item)
  }

  /** One subtask's contribution to the payload, or None if validation fails. */
  function WithSubtask(schemas: Schemas, st: Subtask, results: Results, payload: ResultPayload): Option<ResultPayload> {
    match ResultOf(results, st.id)
    case None => Some(payload)
    case Some(content) =>
      match st.operation
      case F3 => if schemas.summary(content) then Some(payload.(summary := Some(content))) else None
      case F5 =>
        var items := ListAt(content, "terms");
        if ValidItems(items, schemas.term) then Some(payload.(terms := items)) else None
      case F4 =>
        var items := ListAt(content, "questions");
        if ValidItems(items, schemas.question) then Some(payload.(quiz := items)) else None
      case F6 =>
        var items := ListAt(content, "citations");
        if ValidItems(items, schemas.citation) then Some(payload.(citations := items)) else None
      case _ => Some(payload)
  }

  const EMPTY_PAYLOAD: ResultPayload := ResultPayload(None, [], [], [])

  /** Every content that reaches the payload passes its schema. */
  predicate Presentable(schemas: Schemas, subtasks: seq<Subtask>, results: Results) {
    forall st :: st in subtasks ==> WithSubtask(schemas, st, results, EMPTY_PAYLOAD).Some?
  }

  /** The payload part an operation of the plan fills, read off the results. */
  predicate PayloadShows(payload: ResultPayload, st: Subtask, results: Results) {
    match st.operation
    case F3 => payload.summary == ResultOf(results, st.id)
    case F5 => payload.terms == (if HasResult(results, st) then ListAt(results[st.id].value, "terms") else [])
    case F4 => payload.quiz == (if HasResult(results, st) then ListAt(results[st.id].value, "questions") else [])
    case F6 => payload.citations == (if HasResult(results, st) then ListAt(results[st.id].value, "citations") else [])
    case _ => true
  }

  /** Entries of one operation are one subtask, as in every built plan. */
  ghost predicate OneEntryPerOperation(plan: Plan) {
    forall a, b :: a in plan.subtasks && b in plan.subtasks && a.operation == b.operation ==> a == b
  }

  lemma BuiltPlanOneEntryPerOperation(task: Task)
    ensures OneEntryPerOperation(BuildPlan(task))
  {
    forall a, b | a in BuildPlan(task).subtasks && b in BuildPlan(task).subtasks && a.operation == b.operation
      ensures a == b
    {
      BuildPlanEntries(task, a);
      BuildPlanEntries(task, b);
    }
  }

  /** The payload after the given entries, in plan order. */
  function PayloadAfter(schemas: Schemas, subtasks: seq<Subtask>, results: Results): Option<ResultPayload> {
    if subtasks == [] then Some(EMPTY_PAYLOAD)
    else
      var before := PayloadAfter(schemas, subtasks[..|subtasks| - 1], results);
      if before.None? then None else WithSubtask(schemas, subtasks[|subtasks| - 1], results, before.value)
  }

  /** `assemble_payload`. */
  method AssemblePayload(schemas: Schemas, plan: Plan, results: Results) returns (r: Option<ResultPayload>)
    ensures r == PayloadAfter(schemas, plan.subtasks, results)
  {
    var payload := EMPTY_PAYLOAD;
    for i := 0 to |plan.subtasks|
      invariant PayloadAfter(schemas, plan.subtasks[..i], results) == Some(payload)
    {
      var next := WithSubtask(schemas, plan.subtasks[i], results, payload);
      assert plan.subtasks[..i + 1][..i] == plan.subtasks[..i];
      if next.None? {
        FailsForGood(schemas, plan.subtasks, results, i + 1);
        return None;
      }
      payload := next.value;
    }
    assert plan.subtasks[..|plan.subtasks|] == plan.subtasks;
    r := Some(payload);
  }

  lemma {:induction false} FailsForGood(schemas: Schemas, subtasks: seq<Subtask>, results: Results, i: nat)
    requires i <= |subtasks| && PayloadAfter(schemas, subtasks[..i], results) == None
    ensures PayloadAfter(schemas, subtasks, results) == None
    decreases |subtasks|
  {
    if i == |subtasks| {
      assert subtasks[..i] == subtasks;
    } else {
      assert subtasks[..|subtasks| - 1][..i] == subtasks[..i];
      FailsForGood(schemas, subtasks[..|subtasks| - 1], results, i);
    }
  }

  /** Assembly fails exactly when some content fails its schema. */
  lemma {:induction false} AssemblyFailsOnInvalid(schemas: Schemas, subtasks: seq<Subtask>, results: Results)
    ensures PayloadAfter(schemas, subtasks, results).Some? <==> Presentable(schemas, subtasks, results)
  {
    if subtasks != [] {
      var n := |subtasks| - 1;
      assert subtasks == subtasks[..n] + [subtasks[n]];
      AssemblyFailsOnInvalid(schemas, subtasks[..n], results);
      var before := PayloadAfter(schemas, subtasks[..n], results);
      if before.Some? {
        assert WithSubtask(schemas, subtasks[n], results, before.value).Some?
          <==> WithSubtask(schemas, subtasks[n], results, EMPTY_PAYLOAD).Some?;
      }
    }
  }

  lemma {:induction false} UntouchedField(schemas: Schemas, subtasks: seq<Subtask>, results: Results, op: Operation)
    requires PayloadAfter(schemas, subtasks, results).Some?
    requires forall st :: st in subtasks ==> st.operation != op
    ensures var p := PayloadAfter(schemas, subtasks, results).value;
      match op
      case F3 => p.summary == None
      case F5 => p.terms == []
      case F4 => p.quiz == []
      case F6 => p.citations == []
      case _ => true
  {
    if subtasks != [] {
      var n := |subtasks| - 1;
      assert subtasks[n] in subtasks && forall st :: st in subtasks[..n] ==> st in subtasks;
      UntouchedField(schemas, subtasks[..n], results, op);
    }
  }

  /** The assembled payload shows for every operation what its subtask returned. */
  lemma {:induction false} PayloadShowsResults(schemas: Schemas, subtasks: seq<Subtask>, results: Results, st: Subtask)
    requires PayloadAfter(schemas, subtasks, results).Some? && st in subtasks
    requires forall other :: other in subtasks && other.operation == st.operation ==> other == st
    ensures PayloadShows(PayloadAfter(schemas, subtasks, results).value, st, results)
  {
    var n := |subtasks| - 1;
    var last := subtasks[n];
    assert last in subtasks && forall other :: other in subtasks[..n] ==> other in subtasks;
    if st in subtasks[..n] {
      PayloadShowsResults(schemas, subtasks[..n], results, st);
    } else {
      assert last == st;
      UntouchedField(schemas, subtasks[..n], results, st.operation);
    }
  }
}
