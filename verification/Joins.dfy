/** What the outcome theorem comes to for the six operations, by name. */
module Joins {
  import opened Plans
  import opened Dispatch
  import opened Invariants
  import opened Outcome

  /** The subtask of the named operation has a result. */
  predicate Got(s: State, taskId: string, name: string) {
    "st-" + taskId + "-" + name in s.cells && s.cells["st-" + taskId + "-" + name].result.Success?
  }

  /** The agent of the named operation does its work for this task. */
  predicate Works(good: set<Id>, taskId: string, name: string) {
    "st-" + taskId + "-" + name in good
  }

  /** The operation is requested and, if it is an ingestion, has a document to work on. */
  predicate Wanted(task: Task, op: Operation) {
    && op in task.requestedOutputs
    && (op == F1 ==> exists d :: d in task.documents && d.documentType == Audio)
    && (op == F2 ==> exists d :: d in task.documents && (d.documentType == Pdf || d.documentType == Image))
  }

  /** When each operation must have a result in the end: a summary or a glossary if
      one ingestion succeeded or none was wanted, recommendations likewise on summary
      and glossary, a quiz only if a wanted summary succeeded; and only where the
      agent does its own work. */
  predicate ComesOut(task: Task, good: set<Id>, s: State, op: Operation) {
    var id := task.id;
    match op
    case F1 => Got(s, id, "F1") <==> Wanted(task, F1) && Works(good, id, "F1")
    case F2 => Got(s, id, "F2") <==> Wanted(task, F2) && Works(good, id, "F2")
    case F3 => Got(s, id, "F3") <==>
      Wanted(task, F3) && Works(good, id, "F3") &&
      ((!Wanted(task, F1) && !Wanted(task, F2)) || Got(s, id, "F1") || Got(s, id, "F2"))
    case F5 => Got(s, id, "F5") <==>
      Wanted(task, F5) && Works(good, id, "F5") &&
      ((!Wanted(task, F1) && !Wanted(task, F2)) || Got(s, id, "F1") || Got(s, id, "F2"))
    case F4 => Got(s, id, "F4") <==>
      Wanted(task, F4) && Works(good, id, "F4") && (!Wanted(task, F3) || Got(s, id, "F3"))
    case F6 => Got(s, id, "F6") <==>
      Wanted(task, F6) && Works(good, id, "F6") &&
      ((!Wanted(task, F3) && !Wanted(task, F5)) || Got(s, id, "F3") || Got(s, id, "F5"))
  }

  /** An entry succeeds on what its dependencies yield. */
  ghost predicate EntryComesOut(good: set<Id>, s: State, st: Subtask) {
    st.id in s.cells &&
    (s.cells[st.id].result.Success? <==>
      && st.id in good
      && (st.dependsOn == [] || exists d :: d in st.dependsOn && d in s.cells && s.cells[d].result.Success?)
      && (st.join == All ==> forall d :: d in st.dependsOn ==> d in s.cells && s.cells[d].result.Success?))
  }

  lemma EntryInHistory(cfg: Config, rank: map<Id, nat>, good: set<Id>, t: real, h: seq<Event>, st: Subtask)
    requires WellFormed(cfg.plan, rank) && st in cfg.plan.subtasks
    requires History(cfg, good, Submitted(cfg, t), h) && Finished(After(cfg, good, Submitted(cfg, t), h).s)
    ensures After(cfg, good, Submitted(cfg, t), h).s.cells.Keys == Ids(cfg.plan)
    ensures EntryComesOut(good, After(cfg, good, Submitted(cfg, t), h).s, st)
  {
    GetIsEntry(cfg.plan, rank, st);
    KeysInHistory(cfg, rank, good, t, h);
    SuccessInHistory(cfg, rank, good, t, h, st.id);
    hide History, After, Submitted, Finished;
    forall d | d in st.dependsOn
      ensures var s := After(cfg, good, Submitted(cfg, t), h).s;
        d in s.cells && (s.cells[d].result.Success? <==> Yields(cfg.plan, rank, good, d))
    {
      SuccessInHistory(cfg, rank, good, t, h, d);
    }
  }

  lemma KeysInHistory(cfg: Config, rank: map<Id, nat>, good: set<Id>, t: real, h: seq<Event>)
    requires WellFormed(cfg.plan, rank) && History(cfg, good, Submitted(cfg, t), h)
    ensures After(cfg, good, Submitted(cfg, t), h).s.cells.Keys == Ids(cfg.plan)
  {
    InitialInv(cfg, map[], t);
    assert Agrees(cfg, rank, good, Submitted(cfg, t));
    HistoryAgrees(cfg, rank, good, Submitted(cfg, t), h);
  }

  lemma SuccessInHistory(cfg: Config, rank: map<Id, nat>, good: set<Id>, t: real, h: seq<Event>, id: Id)
    requires WellFormed(cfg.plan, rank) && id in Ids(cfg.plan)
    requires History(cfg, good, Submitted(cfg, t), h) && Finished(After(cfg, good, Submitted(cfg, t), h).s)
    ensures var s := After(cfg, good, Submitted(cfg, t), h).s;
      id in s.cells && (s.cells[id].result.Success? <==> Yields(cfg.plan, rank, good, id))
  {
    OutcomeIsTheMeaning(cfg, rank, good, t, h, id);
    InitialInv(cfg, map[], t);
    assert Agrees(cfg, rank, good, Submitted(cfg, t));
    HistoryAgrees(cfg, rank, good, Submitted(cfg, t), h);
    var s := After(cfg, good, Submitted(cfg, t), h).s;
    assert CellInv(s.cells[id]);
  }

  /** Whatever the interleaving of replies, duplicates, timers and crashes: which
      operations of a finished task have a result. */
  lemma OperationsComeOut(cfg: Config, good: set<Id>, t: real, h: seq<Event>, op: Operation)
    requires cfg.plan == BuildPlan(cfg.task)
    requires History(cfg, good, Submitted(cfg, t), h) && Finished(After(cfg, good, Submitted(cfg, t), h).s)
    ensures ComesOut(cfg.task, good, After(cfg, good, Submitted(cfg, t), h).s, op)
  {
    var s, plan, id := After(cfg, good, Submitted(cfg, t), h).s, cfg.plan, SubtaskIdFor(cfg.task.id, op);
    BuildPlanWellFormed(cfg.task);
    hide BuildPlan, PlanRank, History, After, Submitted, Finished, EntryComesOut, ComesOut, IsEntry, Wanted, Ids;
    KeysInHistory(cfg, PlanRank(cfg.task), good, t, h);
    AllWanted(cfg.task);
    if id in Ids(plan) {
      var st := Get(plan, id);
      EntryInHistory(cfg, PlanRank(cfg.task), good, t, h, st);
      EntryIsByName(cfg.task, st);
      EntryOperation(cfg.task, st, op);
      ByName(cfg.task, good, s, st);
    } else {
      NotPlanned(cfg.task, good, s, op);
    }
  }

  lemma EntryOperation(task: Task, st: Subtask, op: Operation)
    requires st in BuildPlan(task).subtasks && st.id == SubtaskIdFor(task.id, op)
    ensures st.operation == op
  {
    BuildPlanEntries(task, st);
    SubtaskIdInjective(task.id, op, task.id, st.operation);
  }

  lemma AllWanted(task: Task)
    ensures forall op :: SubtaskIdFor(task.id, op) in Ids(BuildPlan(task)) <==> Wanted(task, op)
  {
    forall op | true ensures SubtaskIdFor(task.id, op) in Ids(BuildPlan(task)) <==> Wanted(task, op) {
      PlannedIff(task, op);
    }
  }

  lemma NotPlanned(task: Task, good: set<Id>, s: State, op: Operation)
    requires s.cells.Keys == Ids(BuildPlan(task)) && !Wanted(task, op)
    requires SubtaskIdFor(task.id, op) !in Ids(BuildPlan(task))
    ensures ComesOut(task, good, s, op)
  {
    hide BuildPlan, Ids, Wanted;
    NamesOf(task.id);
  }

  lemma ByName(task: Task, good: set<Id>, s: State, st: Subtask)
    requires s.cells.Keys == Ids(BuildPlan(task)) && IsEntry(task, st) && EntryComesOut(good, s, st)
    requires st.id == SubtaskIdFor(task.id, st.operation) && st.id in Ids(BuildPlan(task))
    requires forall op :: SubtaskIdFor(task.id, op) in Ids(BuildPlan(task)) <==> Wanted(task, op)
    ensures ComesOut(task, good, s, st.operation)
  {
    hide BuildPlan, Ids, Wanted;
    NamesOf(task.id);
    match st.operation
    case F1 => OnNothing(task, good, s, st);
    case F2 => OnNothing(task, good, s, st);
    case F3 => OnEither(task, good, s, st, "F1", "F2");
    case F5 => OnEither(task, good, s, st, "F1", "F2");
    case F4 => OnAll(task, good, s, st, "F3");
    case F6 => OnEither(task, good, s, st, "F3", "F5");
  }

  predicate Present(task: Task, name: string) {
    "st-" + task.id + "-" + name in Ids(BuildPlan(task))
  }

  lemma OnEither(task: Task, good: set<Id>, s: State, st: Subtask, a: string, b: string)
    requires s.cells.Keys == Ids(BuildPlan(task)) && EntryComesOut(good, s, st)
    requires IsEntryWith(task, st, OperationValue(st.operation), st.agent, st.required, Any, {a, b})
    ensures s.cells[st.id].result.Success? <==>
      st.id in good && ((!Present(task, a) && !Present(task, b)) || Got(s, task.id, a) || Got(s, task.id, b))
  {
    hide BuildPlan, Ids, OperationValue;
    var first, second := "st-" + task.id + "-" + a, "st-" + task.id + "-" + b;
    assert a in {a, b} && b in {a, b};
    assert forall d :: d in st.dependsOn <==> (d == first || d == second) && d in Ids(BuildPlan(task));
    assert st.dependsOn != [] ==> st.dependsOn[0] in st.dependsOn;
  }

  lemma OnAll(task: Task, good: set<Id>, s: State, st: Subtask, a: string)
    requires s.cells.Keys == Ids(BuildPlan(task)) && EntryComesOut(good, s, st)
    requires IsEntryWith(task, st, OperationValue(st.operation), st.agent, st.required, All, {a})
    ensures s.cells[st.id].result.Success? <==> st.id in good && (!Present(task, a) || Got(s, task.id, a))
  {
    hide BuildPlan, Ids, OperationValue;
    var first := "st-" + task.id + "-" + a;
    assert a in {a};
    assert forall d :: d in st.dependsOn <==> d == first && d in Ids(BuildPlan(task));
    assert st.dependsOn != [] ==> st.dependsOn[0] in st.dependsOn;
  }

  lemma OnNothing(task: Task, good: set<Id>, s: State, st: Subtask)
    requires s.cells.Keys == Ids(BuildPlan(task)) && EntryComesOut(good, s, st)
    requires IsEntryWith(task, st, OperationValue(st.operation), st.agent, st.required, All, {})
    ensures s.cells[st.id].result.Success? <==> st.id in good
  {
    hide BuildPlan, Ids, OperationValue;
    FirstElement(st.dependsOn);
  }

  lemma FirstElement(ids: seq<Id>)
    ensures ids == [] || exists id :: id in ids
  {
    assert ids == [] || ids[0] in ids;
  }
}
