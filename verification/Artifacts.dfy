/** Assembly of the result artifact from a task's record (src/agents/assembly.py). */
module Artifacts {
  import opened Basics
  import opened Plans
  import opened Payloads
  import opened Selections
  import opened Dispatch
  import opened Invariants
  import opened Verdict
  import opened TaskStates

  /** The read-only view of the record that assembly needs. */
  datatype View = View(
    task: Task, plan: Plan, results: Results, retryCounts: map<Id, nat>,
    firstAttemptAt: map<Id, real>, resolvedAt: map<Id, real>, failReason: map<Id, string>,
    messagesExchanged: nat, startedAt: real)

  /** `_elapsed`, without its rounding. */
  function Elapsed(v: View, id: Id, now: real): real {
    if id !in v.firstAttemptAt then 0.0
    else (if id in v.resolvedAt then v.resolvedAt[id] else now) - v.firstAttemptAt[id]
  }

  function FailedEntry(v: View, st: Subtask, now: real): FailedOperation {
    FailedOperation(
      st.operation, st.agent,
      if st.id in v.failReason then v.failReason[st.id] else "no_reply",
      if st.id in v.retryCounts then v.retryCounts[st.id] else 0,
      Elapsed(v, st.id, now))
  }

  function FailedEntries(v: View, subtasks: seq<Subtask>, now: real): seq<FailedOperation> {
    if subtasks == [] then []
    else
      var rest := FailedEntries(v, subtasks[1..], now);
      if HasResult(v.results, subtasks[0]) then rest else [FailedEntry(v, subtasks[0], now)] + rest
  }

  function AgentsOf(plan: Plan): set<AgentName> {
    set st | st in plan.subtasks :: st.agent
  }

  /** `assemble_artifact`, given the assembled payload. */
  function ArtifactOf(v: View, payload: ResultPayload, status: TaskStatus, now: real): Artifact {
    Artifact(v.task.id, status,
             OperationsWhere(v.plan.subtasks, v.results, true), payload,
             OperationsWhere(v.plan.subtasks, v.results, false),
             now - v.startedAt, |AgentsOf(v.plan)| + 1, v.messagesExchanged,
             FailedEntries(v, v.plan.subtasks, now))
  }

  /** What the artifact of a task must say, whatever led to its record. */
  ghost predicate Faithful(a: Artifact, plan: Plan, results: Results) {
    && a.status == DetermineFinalStatus(plan, results)
    && multiset(a.operations) + multiset(a.degraded) == multiset(OperationsOf(plan.subtasks))
    && (a.status == COMPLETED <==> a.degraded == [])
    && (a.status == FAILED <==> plan.subtasks != [] && a.operations == [])
    && |a.failedOperations| == |a.degraded|
    && (forall i :: 0 <= i < |a.degraded| ==> i < |a.failedOperations| && a.failedOperations[i].op == a.degraded[i])
    && (OneEntryPerOperation(plan) ==> forall st :: st in plan.subtasks ==> PayloadShows(a.result, st, results))
  }

  lemma {:induction false} FailedMatchDegraded(v: View, subtasks: seq<Subtask>, now: real)
    ensures |FailedEntries(v, subtasks, now)| == |OperationsWhere(subtasks, v.results, false)|
    ensures forall i :: 0 <= i < |FailedEntries(v, subtasks, now)| ==>
              FailedEntries(v, subtasks, now)[i].op == OperationsWhere(subtasks, v.results, false)[i]
  {
    if subtasks != [] {
      FailedMatchDegraded(v, subtasks[1..], now);
    }
  }

  /** The artifact splits the plan into results and failures and carries the
      status that split calls for. */
  lemma ArtifactIsFaithful(v: View, schemas: Schemas, now: real)
    requires PayloadAfter(schemas, v.plan.subtasks, v.results).Some?
    ensures Faithful(ArtifactOf(v, PayloadAfter(schemas, v.plan.subtasks, v.results).value,
                                DetermineFinalStatus(v.plan, v.results), now), v.plan, v.results)
  {
    var payload := PayloadAfter(schemas, v.plan.subtasks, v.results).value;
    OperationsPartition(v.plan.subtasks, v.results);
    StatusMatchesOperations(v.plan, v.results);
    FailedMatchDegraded(v, v.plan.subtasks, now);
    if OneEntryPerOperation(v.plan) {
      forall st | st in v.plan.subtasks ensures PayloadShows(payload, st, v.results) {
        PayloadShowsResults(schemas, v.plan.subtasks, v.results, st);
      }
    }
  }

  /** The subtasks without a result, in plan order. */
  function Lacking(subtasks: seq<Subtask>, results: Results): seq<Subtask> {
    if subtasks == [] then []
    else
      var rest := Lacking(subtasks[1..], results);
      if HasResult(results, subtasks[0]) then rest else [subtasks[0]] + rest
  }

  lemma {:induction false} LackingInOrder(subtasks: seq<Subtask>, results: Results)
    ensures Selects(Lacking(subtasks, results), subtasks, ReturnedAt(subtasks, results, false))
  {
    var wanted := ReturnedAt(subtasks, results, false);
    if subtasks == [] {
      NothingSelected<Subtask>(wanted);
    } else {
      var rest := subtasks[1..];
      LackingInOrder(rest, results);
      assert subtasks == [subtasks[0]] + rest;
      ReturnedBefore(subtasks, results, false);
      hide Selects, ReturnedAt, Returned, HasResult;
      SelectsBefore(Lacking(rest, results), rest, ReturnedAt(rest, results, false), subtasks[0], wanted);
    }
  }

  lemma {:induction false} FailedEntriesAt(v: View, subtasks: seq<Subtask>, now: real)
    ensures |FailedEntries(v, subtasks, now)| == |Lacking(subtasks, v.results)|
    ensures forall i :: 0 <= i < |Lacking(subtasks, v.results)| ==>
      && FailedEntries(v, subtasks, now)[i] == FailedEntry(v, Lacking(subtasks, v.results)[i], now)
      && Lacking(subtasks, v.results)[i] in subtasks && !HasResult(v.results, Lacking(subtasks, v.results)[i])
  {
    if subtasks != [] {
      FailedEntriesAt(v, subtasks[1..], now);
    }
  }

  /** What assembly sees of a record. */
  function ViewOf(state: TaskState): View
    reads state
  {
    View(state.task, state.plan, state.results, state.retryCounts, state.firstAttemptAt, state.resolvedAt,
         state.failReason, state.messagesExchanged, state.startedAt)
  }

  /** The failures of an artifact, in plan order, carry the recorded reasons; the
      stand-in "no_reply" is only used for a subtask still pending, that is, when
      the global deadline cut the task off. */
  lemma FailuresHaveReasons(state: TaskState, payload: ResultPayload, status: TaskStatus, now: real, i: nat)
    requires state.Valid() && i < |Lacking(state.plan.subtasks, state.results)|
    ensures var failures, st := ArtifactOf(ViewOf(state), payload, status, now).failedOperations,
                                Lacking(state.plan.subtasks, state.results)[i];
      && i < |failures| && failures[i].op == st.operation
      && (if st.id in state.failReason then failures[i].reason == state.failReason[st.id]
          else failures[i].reason == "no_reply" && st.id in state.pending)
  {
    var st := Lacking(state.plan.subtasks, state.results)[i];
    FailedEntriesAt(ViewOf(state), state.plan.subtasks, now);
    assert st in state.plan.subtasks && !HasResult(state.results, st);
    state.SnapshotCells();
    assert CellInv(state.CellOf(st.id));
  }

  // ----- The figures -----

  /** A failure as the artifact must show it of a task concluded in state s: the
      time counts from the first request to the resolution, or to now. */
  ghost predicate FailureShows(f: FailedOperation, st: Subtask, s: State) {
    st.id in s.cells &&
    var c := s.cells[st.id];
    && f.op == st.operation && f.agent == st.agent && f.retries == c.retries
    && f.reason == (if c.failReason.Some? then c.failReason.value else "no_reply")
    && f.elapsed == if c.firstAttemptAt.None? then 0.0
                    else (if c.resolvedAt.Some? then c.resolvedAt.value else s.now) - c.firstAttemptAt.value
  }

  /** The figures that the artifact of a task concluded in state s must show. */
  ghost predicate ReportsOn(a: Artifact, plan: Plan, s: State) {
    var missing := Lacking(plan.subtasks, ResultsOf(s));
    && a.duration == s.now - s.startedAt && a.messagesExchanged == s.messagesExchanged
    && a.agentsCalled == |set st | st in plan.subtasks :: st.agent| + 1
    && |a.failedOperations| == |missing|
    && forall i :: 0 <= i < |missing| ==> FailureShows(a.failedOperations[i], missing[i], s)
  }

  /** The artifact was assembled from this view. */
  ghost predicate AssembledFrom(a: Artifact, v: View, now: real) {
    exists payload, status :: a == ArtifactOf(v, payload, status, now)
  }

  lemma AssembledReports(state: TaskState, a: Artifact)
    requires state.Shape() && AssembledFrom(a, ViewOf(state), state.clock)
    ensures ReportsOn(a, state.plan, state.Snapshot())
  {
    var v := ViewOf(state);
    state.ResultsMatch();
    state.SnapshotCells();
    FailedEntriesAt(v, state.plan.subtasks, state.clock);
    var missing := Lacking(state.plan.subtasks, state.results);
    forall i | 0 <= i < |missing| ensures FailureShows(a.failedOperations[i], missing[i], state.Snapshot()) {
      EntryHasId(state.plan.subtasks, missing[i]);
    }
  }
}
