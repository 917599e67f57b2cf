/** Recovery and the dispatch loop together: what a restarted task does with the
    results reloaded from the tables. */
module Restart {
  import opened Basics
  import opened Plans
  import opened Dispatch
  import opened Invariants
  import opened Ticks
  import opened Handlers
  import opened Outcome
  import opened Recovery
  import opened Durability

  /** After a resume only subtasks of the plan without a reloaded result are ever
      sent, and reloaded results are never replaced. */
  lemma ResumeSendsOnlyMissing(cfg: Config, stored: map<Id, Content>, t: real, acts: seq<Action>, id: Id)
    requires Legal(cfg, Initial(cfg, stored, t), acts) && id in Exec(cfg, Initial(cfg, stored, t), acts).cells
    ensures var c := Exec(cfg, Initial(cfg, stored, t), acts).cells[id];
      && id in Ids(cfg.plan)
      && (id in stored ==> c.sent == [] && c.result == Success(stored[id]))
      && (c.sent != [] ==> id !in stored)
  {
    var init := Initial(cfg, stored, t);
    InitialInv(cfg, stored, t);
    RunInv(cfg, init, acts);
    if id in stored {
      assert Resolved(init, id);
      ResolvedIsFrozen(cfg, init, acts, id);
    }
  }

  /** A content to be stored names, by task and operation, the subtask whose
      inform left it. */
  lemma JobNamesSubtask(cfg: Config, s: State, m: Message)
    requires Inv(cfg, s) && cfg.plan == BuildPlan(cfg.task) && JobFor(cfg, s, m).Some?
    ensures var job := JobFor(cfg, s, m).value;
      && m.subtaskId == Some(SubtaskIdFor(job.taskId, job.operation)) && job.taskId == cfg.task.id
      && ActionFor(s, m) == Some(Inform(m.subtaskId.value, job.content))
  {
    var id := m.subtaskId.value;
    BuildPlanEntries(cfg.task, Get(cfg.plan, id));
  }

  /** The results reloaded from the tables are what a crash of a history may
      leave: if everything saved for the task had been informed, so had
      everything reloaded. Hence the outcome of a task does not depend on which
      results were saved before which crash. */
  lemma ReloadingIsACrash(layout: Layout, saves: seq<Save>, cfg: Config, good: set<Id>, w: World,
                          results: map<Id, Content>, t: real)
    requires WellLaidOut(layout) && AllProper(layout, saves)
    requires Loads(AfterSaves(saves), cfg.task.id, results, ALL_OPERATIONS)
    requires forall s :: s in saves && s.taskId == cfg.task.id ==> SubtaskIdFor(s.taskId, s.op) in w.everInformed
    ensures Possible(cfg, w, Crash(results, t)) && Environment(cfg, good, w, Crash(results, t))
  {
    forall id | id in results ensures id in w.everInformed {
      ReloadedWasSaved(layout, saves, cfg.task.id, results, id);
    }
  }
}
