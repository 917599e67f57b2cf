/** Tasks, plans and the construction of a plan from a task (src/plan.py). */
module Plans {
  import opened Selections

  type Id = string

  datatype Operation = F1 | F2 | F3 | F4 | F5 | F6

  datatype AgentName = Transcriber | Ocr | Summarizer | TestGenerator | Terminology | Recommender

  datatype DocumentType = Audio | Image | Pdf | Text

  datatype Document = Document(id: string, documentType: DocumentType, filePath: string)

  datatype Task = Task(id: string, requestedOutputs: seq<Operation>, documents: seq<Document>)

  datatype JoinPolicy = All | Any

  datatype Subtask = Subtask(
    id: Id, agent: AgentName, operation: Operation,
    dependsOn: seq<Id>, required: bool, join: JoinPolicy)

  datatype Plan = Plan(taskId: string, subtasks: seq<Subtask>)

  // ----- Plans in general -----

  function Ids(plan: Plan): set<Id> {
    IdsOf(plan.subtasks)
  }

  function IdsOf(subtasks: seq<Subtask>): set<Id> {
    if subtasks == [] then {} else IdsOf(subtasks[..|subtasks| - 1]) + {subtasks[|subtasks| - 1].id}
  }

  lemma {:induction false} EntryHasId(subtasks: seq<Subtask>, st: Subtask)
    requires st in subtasks
    ensures st.id in IdsOf(subtasks)
  {
    var n := |subtasks| - 1;
    if subtasks[n] != st {
      assert st in subtasks[..n];
      EntryHasId(subtasks[..n], st);
    }
  }

  /** `Plan.get`: the dictionary built from the list keeps the last entry of an id. */
  function Get(plan: Plan, id: Id): (st: Subtask)
    requires id in Ids(plan)
    ensures st in plan.subtasks && st.id == id
  {
    LastWithId(plan.subtasks, id)
  }

  function LastWithId(subtasks: seq<Subtask>, id: Id): (st: Subtask)
    requires id in IdsOf(subtasks)
    ensures st in subtasks && st.id == id
  {
    var n := |subtasks| - 1;
    if subtasks[n].id == id then subtasks[n] else LastWithId(subtasks[..n], id)
  }

  /** Entries that share an id are equal (a request may list an operation twice). */
  ghost predicate Coherent(plan: Plan) {
    forall st :: st in plan.subtasks ==> st.id in Ids(plan) && Get(plan, st.id) == st
  }

  /** What the dispatch loop needs of a plan: coherent entries, dependencies
      inside the plan, and a `rank` that orders every dependency before its
      dependent. */
  ghost predicate WellFormed(plan: Plan, rank: map<Id, nat>) {
    && Ids(plan) <= rank.Keys
    && Coherent(plan)
    && (forall st, d :: st in plan.subtasks && d in st.dependsOn ==>
          d in Ids(plan) && d in rank && rank[d] < rank[st.id])
  }

  lemma GetIsEntry(plan: Plan, rank: map<Id, nat>, st: Subtask)
    requires WellFormed(plan, rank) && st in plan.subtasks
    ensures st.id in Ids(plan) && Get(plan, st.id) == st
  {
  }

  // ----- Building a plan -----

  function OperationValue(op: Operation): (v: string)
    ensures |v| == 2
  {
    match op
    case F1 => "F1"
    case F2 => "F2"
    case F3 => "F3"
    case F4 => "F4"
    case F5 => "F5"
    case F6 => "F6"
  }

  function AgentOf(op: Operation): AgentName {
    match op
    case F1 => Transcriber
    case F2 => Ocr
    case F3 => Summarizer
    case F4 => TestGenerator
    case F5 => Terminology
    case F6 => Recommender
  }

  predicate IsRequiredAgent(agent: AgentName) {
    agent == Transcriber || agent == Ocr
  }

  predicate IsAnyJoin(op: Operation) {
    op == F3 || op == F5 || op == F6
  }

  /** DEPENDENCY_MAP. */
  function Upstreams(op: Operation): seq<Operation> {
    match op
    case F3 => [F1, F2]
    case F5 => [F1, F2]
    case F4 => [F3]
    case F6 => [F3, F5]
    case _ => []
  }

  function SubtaskIdFor(taskId: string, op: Operation): Id {
    "st-" + taskId + "-" + OperationValue(op)
  }

  /** Subtask ids never coincide across tasks or across operations. */
  lemma SubtaskIdInjective(t1: string, op1: Operation, t2: string, op2: Operation)
    requires SubtaskIdFor(t1, op1) == SubtaskIdFor(t2, op2)
    ensures t1 == t2 && op1 == op2
  {
    var id1, id2 := SubtaskIdFor(t1, op1), SubtaskIdFor(t2, op2);
    assert |id1| == 3 + |t1| + 3 && |id2| == 3 + |t2| + 3;
    assert t1 == id1[3..3 + |t1|] && t2 == id2[3..3 + |t2|];
    assert OperationValue(op1) == id1[|id1| - 2..] && OperationValue(op2) == id2[|id2| - 2..];
    assert OperationValue(op1)[1] == OperationValue(op2)[1];
  }

  predicate HasAudio(task: Task) {
    exists d :: d in task.documents && d.documentType == Audio
  }

  predicate HasPdfOrImage(task: Task) {
    exists d :: d in task.documents && (d.documentType == Pdf || d.documentType == Image)
  }

  predicate Admissible(task: Task, op: Operation) {
    (op == F1 ==> HasAudio(task)) && (op == F2 ==> HasPdfOrImage(task))
  }

  /** The requested operations the attached documents allow, in request order. */
  function Eligible(task: Task, ops: seq<Operation>): (r: seq<Operation>)
    ensures forall op :: op in r <==> op in ops && Admissible(task, op)
  {
    if ops == [] then []
    else
      var rest := Eligible(task, ops[..|ops| - 1]);
      var op := ops[|ops| - 1];
      assert ops == ops[..|ops| - 1] + [op];
      if Admissible(task, op) then rest + [op] else rest
  }

  /** The positions of the requested operations that can be planned. */
  ghost function EligibleAt(task: Task, ops: seq<Operation>): set<int> {
    set i | 0 <= i < |ops| && Admissible(task, ops[i])
  }

  lemma {:induction false} EligibleInOrder(task: Task, ops: seq<Operation>)
    ensures Selects(Eligible(task, ops), ops, EligibleAt(task, ops))
  {
    if ops == [] {
      NothingSelected<Operation>(EligibleAt(task, ops));
    } else {
      var n := |ops| - 1;
      EligibleInOrder(task, ops[..n]);
      assert ops == ops[..n] + [ops[n]];
      SelectsNext(Eligible(task, ops[..n]), ops[..n], EligibleAt(task, ops[..n]), ops[n], EligibleAt(task, ops));
    }
  }

  method EligibleOperations(task: Task) returns (eligible: seq<Operation>)
    ensures eligible == Eligible(task, task.requestedOutputs)
    ensures Selects(eligible, task.requestedOutputs, EligibleAt(task, task.requestedOutputs))
  {
    EligibleInOrder(task, task.requestedOutputs);
    hide Selects;
    var hasAudio := HasAudio(task);
    var hasPdfOrImage := HasPdfOrImage(task);
    eligible := [];
    for i := 0 to |task.requestedOutputs|
      invariant eligible == Eligible(task, task.requestedOutputs[..i])
    {
      var op := task.requestedOutputs[i];
      assert task.requestedOutputs[..i + 1][..i] == task.requestedOutputs[..i];
      if (op == F1 && !hasAudio) || (op == F2 && !hasPdfOrImage) {
        continue;
      }
      eligible := eligible + [op];
    }
    assert task.requestedOutputs[..|task.requestedOutputs|] == task.requestedOutputs;
  }

  /** The upstream subtask ids of an operation, kept to those in the plan. */
  function Dependencies(ups: seq<Operation>, eligible: seq<Operation>, taskId: string): (r: seq<Id>)
    ensures forall id :: id in r <==> exists u :: u in ups && u in eligible && id == SubtaskIdFor(taskId, u)
  {
    if ups == [] then []
    else
      var rest := Dependencies(ups[1..], eligible, taskId);
      assert ups == [ups[0]] + ups[1..];
      if ups[0] in eligible then [SubtaskIdFor(taskId, ups[0])] + rest else rest
  }

  function SubtaskFor(task: Task, eligible: seq<Operation>, op: Operation): Subtask {
    Subtask(SubtaskIdFor(task.id, op), AgentOf(op), op,
            Dependencies(Upstreams(op), eligible, task.id),
            IsRequiredAgent(AgentOf(op)),
            if IsAnyJoin(op) then Any else All)
  }

  function BuildPlan(task: Task): Plan {
    var eligible := Eligible(task, task.requestedOutputs);
    Plan(task.id, seq(|eligible|, i requires 0 <= i < |eligible| => SubtaskFor(task, eligible, eligible[i])))
  }

  function OperationRank(op: Operation): nat {
    match op
    case F1 => 0
    case F2 => 0
    case F3 => 1
    case F5 => 1
    case _ => 2
  }

  ghost function PlanRank(task: Task): (rank: map<Id, nat>)
    ensures forall op :: SubtaskIdFor(task.id, op) in rank && rank[SubtaskIdFor(task.id, op)] == OperationRank(op)
  {
    forall op1, op2 ensures SubtaskIdFor(task.id, op1) == SubtaskIdFor(task.id, op2) ==> op1 == op2 {
      if SubtaskIdFor(task.id, op1) == SubtaskIdFor(task.id, op2) {
        SubtaskIdInjective(task.id, op1, task.id, op2);
      }
    }
    map[SubtaskIdFor(task.id, F1) := 0, SubtaskIdFor(task.id, F2) := 0,
        SubtaskIdFor(task.id, F3) := 1, SubtaskIdFor(task.id, F5) := 1,
        SubtaskIdFor(task.id, F4) := 2, SubtaskIdFor(task.id, F6) := 2]
  }

  /** The entries of the built plan are exactly the admissible requested operations. */
  lemma BuildPlanEntries(task: Task, st: Subtask)
    ensures st in BuildPlan(task).subtasks <==>
      exists op :: op in task.requestedOutputs && Admissible(task, op) &&
        st == SubtaskFor(task, Eligible(task, task.requestedOutputs), op)
  {
    var eligible := Eligible(task, task.requestedOutputs);
    var subtasks := BuildPlan(task).subtasks;
    assert forall i :: 0 <= i < |eligible| ==> subtasks[i] == SubtaskFor(task, eligible, eligible[i]);
    if op :| op in task.requestedOutputs && Admissible(task, op) && st == SubtaskFor(task, eligible, op) {
      var i :| 0 <= i < |eligible| && eligible[i] == op;
      assert subtasks[i] == st;
    }
    if st in subtasks {
      var i :| 0 <= i < |subtasks| && subtasks[i] == st;
      assert eligible[i] in eligible;
    }
  }

  lemma EntryOfOperation(task: Task, op: Operation)
    requires op in task.requestedOutputs && Admissible(task, op)
    ensures SubtaskIdFor(task.id, op) in Ids(BuildPlan(task))
  {
    var eligible := Eligible(task, task.requestedOutputs);
    var plan := BuildPlan(task);
    var i :| 0 <= i < |eligible| && eligible[i] == op;
    assert plan.subtasks[i] == SubtaskFor(task, eligible, op);
    EntryHasId(plan.subtasks, plan.subtasks[i]);
  }

  lemma EntriesCoherent(task: Task, a: Subtask, b: Subtask)
    requires a in BuildPlan(task).subtasks && b in BuildPlan(task).subtasks && a.id == b.id
    ensures a == b
  {
    BuildPlanEntries(task, a);
    BuildPlanEntries(task, b);
    SubtaskIdInjective(task.id, a.operation, task.id, b.operation);
  }

  lemma DependencyInPlan(task: Task, st: Subtask, d: Id)
    requires st in BuildPlan(task).subtasks && d in st.dependsOn
    ensures exists u :: u in Upstreams(st.operation) && d == SubtaskIdFor(task.id, u)
    ensures st.id == SubtaskIdFor(task.id, st.operation)
    ensures d in Ids(BuildPlan(task))
  {
    BuildPlanEntries(task, st);
    var eligible := Eligible(task, task.requestedOutputs);
    var u :| u in Upstreams(st.operation) && u in eligible && d == SubtaskIdFor(task.id, u);
    EntryOfOperation(task, u);
  }

  /** The plan entry a dependency names. */
  lemma DependencyEntry(task: Task, st: Subtask, d: Id) returns (up: Subtask)
    requires st in BuildPlan(task).subtasks && d in st.dependsOn
    ensures up in BuildPlan(task).subtasks && up.id == d && up.operation in Upstreams(st.operation)
  {
    DependencyInPlan(task, st, d);
    up := Get(BuildPlan(task), d);
    var u :| u in Upstreams(st.operation) && d == SubtaskIdFor(task.id, u);
    BuildPlanEntries(task, up);
    SubtaskIdInjective(task.id, u, task.id, up.operation);
  }

  /** Every task gets a plan the dispatch loop can run, whatever it requests:
      no dangling dependency, no cycle, and repeated requests are harmless. */
  lemma BuildPlanWellFormed(task: Task)
    ensures WellFormed(BuildPlan(task), PlanRank(task))
  {
    hide BuildPlan, PlanRank;
    var plan, rank := BuildPlan(task), PlanRank(task);
    forall st | st in plan.subtasks ensures st.id in Ids(plan) && Get(plan, st.id) == st {
      EntryHasId(plan.subtasks, st);
      EntriesCoherent(task, Get(plan, st.id), st);
    }
    forall id | id in Ids(plan) ensures id in rank {
      IdIsRanked(task, Get(plan, id));
    }
    forall st, d | st in plan.subtasks && d in st.dependsOn
      ensures d in Ids(plan) && d in rank && st.id in rank && rank[d] < rank[st.id]
    {
      DependencyIsBefore(task, st, d);
    }
  }

  lemma IdIsRanked(task: Task, st: Subtask)
    requires st in BuildPlan(task).subtasks
    ensures st.id in PlanRank(task) && PlanRank(task)[st.id] == OperationRank(st.operation)
  {
    BuildPlanEntries(task, st);
    assert st.id == SubtaskIdFor(task.id, st.operation);
  }

  lemma DependencyIsBefore(task: Task, st: Subtask, d: Id)
    requires st in BuildPlan(task).subtasks && d in st.dependsOn
    ensures d in Ids(BuildPlan(task)) && d in PlanRank(task) && st.id in PlanRank(task)
    ensures PlanRank(task)[d] < PlanRank(task)[st.id]
  {
    hide BuildPlan, PlanRank;
    var up := DependencyEntry(task, st, d);
    DependencyInPlan(task, st, d);
    IdIsRanked(task, st);
    IdIsRanked(task, up);
  }

  /** What the entry of each operation must be, by name. */
  ghost predicate IsEntry(task: Task, st: Subtask) {
    match st.operation
    case F1 => IsEntryWith(task, st, "F1", Transcriber, true, All, {})
    case F2 => IsEntryWith(task, st, "F2", Ocr, true, All, {})
    case F3 => IsEntryWith(task, st, "F3", Summarizer, false, Any, {"F1", "F2"})
    case F4 => IsEntryWith(task, st, "F4", TestGenerator, false, All, {"F3"})
    case F5 => IsEntryWith(task, st, "F5", Terminology, false, Any, {"F1", "F2"})
    case F6 => IsEntryWith(task, st, "F6", Recommender, false, Any, {"F3", "F5"})
  }

  /** The entry has this name and agent, and depends on those of the named
      operations that are in the plan. */
  ghost predicate IsEntryWith(task: Task, st: Subtask, name: string, agent: AgentName, required: bool, join: JoinPolicy,
                              ups: set<string>) {
    && st.id == "st-" + task.id + "-" + name && st.agent == agent && st.required == required && st.join == join
    && (forall d :: d in st.dependsOn ==> d in Ids(BuildPlan(task)) && exists up :: up in ups && d == "st-" + task.id + "-" + up)
    && forall up :: up in ups && "st-" + task.id + "-" + up in Ids(BuildPlan(task)) ==> "st-" + task.id + "-" + up in st.dependsOn
  }

  /** The agent, the dependencies and the join of every entry of a built plan. */
  lemma EntryIsByName(task: Task, st: Subtask)
    requires st in BuildPlan(task).subtasks
    ensures IsEntry(task, st)
  {
    hide BuildPlan, Ids, Eligible;
    BuildPlanEntries(task, st);
    NamesOf(task.id);
    var name := OperationValue(st.operation);
    var ups := set u | u in Upstreams(st.operation) :: OperationValue(u);
    EntryWithOwnName(task, st, name, ups);
    match st.operation
    case F1 => assert ups == {};
    case F2 => assert ups == {};
    case F3 => assert ups == {"F1", "F2"} by { UpstreamNames(F1, F2); }
    case F5 => assert ups == {"F1", "F2"} by { UpstreamNames(F1, F2); }
    case F4 => assert ups == {"F3"} by { UpstreamNames(F3, F3); }
    case F6 => assert ups == {"F3", "F5"} by { UpstreamNames(F3, F5); }
  }

  lemma UpstreamNames(a: Operation, b: Operation)
    ensures (set u | u in [a, b] :: OperationValue(u)) == {OperationValue(a), OperationValue(b)}
    ensures (set u | u in [a] :: OperationValue(u)) == {OperationValue(a)}
  {
  }

  lemma EntryWithOwnName(task: Task, st: Subtask, name: string, ups: set<string>)
    requires st in BuildPlan(task).subtasks && name == OperationValue(st.operation)
    requires ups == set u | u in Upstreams(st.operation) :: OperationValue(u)
    ensures IsEntryWith(task, st, name, AgentOf(st.operation), IsRequiredAgent(AgentOf(st.operation)),
                        if IsAnyJoin(st.operation) then Any else All, ups)
  {
    BuildPlanEntries(task, st);
    hide BuildPlan, Ids, Eligible, Upstreams;
    assert forall u :: SubtaskIdFor(task.id, u) == "st-" + task.id + "-" + OperationValue(u);
    forall d | d in st.dependsOn ensures d in Ids(BuildPlan(task)) && exists up :: up in ups && d == "st-" + task.id + "-" + up {
      DependencyInPlan(task, st, d);
      var u :| u in Upstreams(st.operation) && d == SubtaskIdFor(task.id, u);
      assert OperationValue(u) in ups;
    }
    forall up | up in ups && "st-" + task.id + "-" + up in Ids(BuildPlan(task)) ensures "st-" + task.id + "-" + up in st.dependsOn {
      var u :| u in Upstreams(st.operation) && up == OperationValue(u);
      DependenciesAreUpstreamsInPlan(task, st, u);
    }
  }

  lemma NamesOf(taskId: string)
    ensures SubtaskIdFor(taskId, F1) == "st-" + taskId + "-" + "F1" && SubtaskIdFor(taskId, F2) == "st-" + taskId + "-" + "F2"
    ensures SubtaskIdFor(taskId, F3) == "st-" + taskId + "-" + "F3" && SubtaskIdFor(taskId, F4) == "st-" + taskId + "-" + "F4"
    ensures SubtaskIdFor(taskId, F5) == "st-" + taskId + "-" + "F5" && SubtaskIdFor(taskId, F6) == "st-" + taskId + "-" + "F6"
  {
  }

  /** An operation is planned if and only if it is requested and, for the two
      ingestions, a document of its kind is attached. */
  lemma PlannedIff(task: Task, op: Operation)
    ensures SubtaskIdFor(task.id, op) in Ids(BuildPlan(task)) <==>
      && op in task.requestedOutputs
      && (op == F1 ==> exists d :: d in task.documents && d.documentType == Audio)
      && (op == F2 ==> exists d :: d in task.documents && (d.documentType == Pdf || d.documentType == Image))
  {
    var plan, eligible := BuildPlan(task), Eligible(task, task.requestedOutputs);
    if op in task.requestedOutputs && Admissible(task, op) {
      BuildPlanEntries(task, SubtaskFor(task, eligible, op));
      EntryHasId(plan.subtasks, SubtaskFor(task, eligible, op));
    }
    if SubtaskIdFor(task.id, op) in Ids(plan) {
      var st := Get(plan, SubtaskIdFor(task.id, op));
      BuildPlanEntries(task, st);
      SubtaskIdInjective(task.id, op, task.id, st.operation);
    }
  }

  /** An operation depends on exactly those of its upstreams that are in the plan. */
  lemma DependenciesAreUpstreamsInPlan(task: Task, st: Subtask, u: Operation)
    requires st in BuildPlan(task).subtasks
    ensures SubtaskIdFor(task.id, u) in st.dependsOn <==>
      u in Upstreams(st.operation) && SubtaskIdFor(task.id, u) in Ids(BuildPlan(task))
  {
    var plan := BuildPlan(task);
    var eligible := Eligible(task, task.requestedOutputs);
    BuildPlanEntries(task, st);
    if SubtaskIdFor(task.id, u) in Ids(plan) {
      var up := Get(plan, SubtaskIdFor(task.id, u));
      BuildPlanEntries(task, up);
      SubtaskIdInjective(task.id, u, task.id, up.operation);
    }
    if SubtaskIdFor(task.id, u) in st.dependsOn {
      DependencyInPlan(task, st, SubtaskIdFor(task.id, u));
      var w :| w in Upstreams(st.operation) && SubtaskIdFor(task.id, u) == SubtaskIdFor(task.id, w);
      SubtaskIdInjective(task.id, u, task.id, w);
    }
  }
}
