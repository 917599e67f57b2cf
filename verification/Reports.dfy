/** The figures in the result artifact, told from what was sent and when. */
module Reports {
  import opened Basics
  import opened Sums
  import opened Plans
  import opened Dispatch
  import opened Invariants
  import opened Budget
  import opened Ticks
  import opened TaskStates
  import opened Verdict
  import opened Artifacts
  import opened Attempts
  import opened Runs

  lemma {:induction false} StartIsKept(cfg: Config, s: State, acts: seq<Action>)
    requires Legal(cfg, s, acts)
    ensures Exec(cfg, s, acts).startedAt == s.startedAt
    decreases |acts|
  {
    if acts != [] {
      StartIsKept(cfg, Apply(cfg, s, acts[0]), acts[1..]);
    }
  }

  /** In a built plan every subtask has an agent of its own. */
  lemma OneAgentEach(task: Task)
    ensures |set st | st in BuildPlan(task).subtasks :: st.agent| == |Ids(BuildPlan(task))|
  {
    var plan := BuildPlan(task);
    var agents, ids := set st | st in plan.subtasks :: st.agent, Ids(plan);
    forall st | st in plan.subtasks ensures st.id in ids {
      EntryHasId(plan.subtasks, st);
    }
    forall a, b | a in plan.subtasks && b in plan.subtasks ensures a.agent == b.agent <==> a.id == b.id {
      BuildPlanEntries(task, a);
      BuildPlanEntries(task, b);
      if a.id == b.id {
        SubtaskIdInjective(task.id, a.operation, task.id, b.operation);
      }
    }
    hide BuildPlan, Ids;
    forall id | id in ids ensures exists st :: st in plan.subtasks && st.id == id {
      assert Get(plan, id).id == id;
    }
    SameNumber(plan.subtasks, agents, ids);
  }

  lemma {:induction false} SameNumber(subtasks: seq<Subtask>, agents: set<AgentName>, ids: set<Id>)
    requires forall agent :: agent in agents ==> exists st :: st in subtasks && st.agent == agent && st.id in ids
    requires forall id :: id in ids ==> exists st :: st in subtasks && st.id == id && st.agent in agents
    requires forall a, b :: a in subtasks && b in subtasks ==> (a.agent == b.agent <==> a.id == b.id)
    ensures |agents| == |ids|
    decreases agents
  {
    if agents == {} {
      assert ids == {};
    } else {
      var agent :| agent in agents;
      var st :| st in subtasks && st.agent == agent && st.id in ids;
      SameNumber(subtasks, agents - {agent}, ids - {st.id});
    }
  }

  /** How many requests and replies a record has seen of a subtask. */
  ghost function MessagesAbout(sent: map<Id, seq<Request>>, routed: map<Id, nat>, id: Id): nat {
    (if id in sent then |sent[id]| else 0) + (if id in routed then routed[id] else 0)
  }

  ghost function AllMessages(ids: set<Id>, sent: map<Id, seq<Request>>, routed: map<Id, nat>): nat {
    Sum(ids, (id: Id) => MessagesAbout(sent, routed, id))
  }

  /** The duration runs from registration; an agent is counted per subtask of the plan,
      and the coordinator; messages are the requests sent and the replies routed. */
  lemma ReportedTotals(state: TaskState, life: Life, payload: ResultPayload, status: TaskStatus, now: real)
    requires state.Valid() && state.cfg.plan == BuildPlan(state.cfg.task)
    requires Lives(state.cfg, life, state.Snapshot())
    ensures var a := ArtifactOf(ViewOf(state), payload, status, now);
      && a.taskId == state.task.id && a.status == status && a.result == payload
      && a.duration == now - life.start
      && a.agentsCalled == |Ids(state.plan)| + 1
      && a.messagesExchanged == AllMessages(Ids(state.plan), state.sent, state.routed)
  {
    hide Lives, BuildPlan, AllMessages, Ids, Sum;
    OneAgentEach(state.cfg.task);
    LifeStart(state.cfg, life, state.Snapshot());
    LifeIsWellKept(state.cfg, life, state.Snapshot());
    MessagesOnRecord(state);
  }

  lemma MessagesOnRecord(state: TaskState)
    requires state.Shape() && MessagesCounted(state.Snapshot())
    ensures state.messagesExchanged == AllMessages(Ids(state.plan), state.sent, state.routed)
  {
    var s := state.Snapshot();
    state.SnapshotCells();
    assert forall id :: id in Ids(state.plan) ==> CellMessages(s, id) == MessagesAbout(state.sent, state.routed, id);
    assert s.cells.Keys == Ids(state.plan);
    TotalMessages(s, state.sent, state.routed);
  }

  lemma TotalMessages(s: State, sent: map<Id, seq<Request>>, routed: map<Id, nat>)
    requires MessagesCounted(s) && forall id :: id in s.cells ==> CellMessages(s, id) == MessagesAbout(sent, routed, id)
    ensures s.messagesExchanged == AllMessages(s.cells.Keys, sent, routed)
  {
    SumSame(s.cells.Keys, (id: Id) => CellMessages(s, id), (id: Id) => MessagesAbout(sent, routed, id));
  }

  lemma LifeStart(cfg: Config, life: Life, s: State)
    requires Lives(cfg, life, s)
    ensures s.startedAt == life.start
  {
    AnyLifeWillDo(cfg, life, s);
    var run := LifeIsRun(cfg, life, s, Conditions(None, false));
    StartIsKept(cfg, Initial(cfg, life.loaded, life.start), run);
  }

  /** A failure shows its agent, how often it was retried, and the time from its first
      request to its resolution, or to now if it is still pending; zero if it was
      never sent. */
  lemma ReportedFailure(state: TaskState, life: Life, payload: ResultPayload, status: TaskStatus, now: real, i: nat)
    requires state.Valid() && Lives(state.cfg, life, state.Snapshot())
    requires i < |Lacking(state.plan.subtasks, state.results)|
    ensures var failures, st := ArtifactOf(ViewOf(state), payload, status, now).failedOperations,
                                Lacking(state.plan.subtasks, state.results)[i];
      && i < |failures| && failures[i].op == st.operation && failures[i].agent == st.agent
      && failures[i].retries == (if st.id in state.retryCounts then state.retryCounts[st.id] else 0)
      && (st.id in state.sent ==> |state.sent[st.id]| <= 1 + failures[i].retries)
      && (if st.id in state.sent && state.sent[st.id] != [] then
            failures[i].elapsed == (if st.id in state.resolvedAt then state.resolvedAt[st.id] else now) - state.sent[st.id][0].at
          else failures[i].elapsed == 0.0)
  {
    var st := Lacking(state.plan.subtasks, state.results)[i];
    FailedEntriesAt(ViewOf(state), state.plan.subtasks, now);
    EntryHasId(state.plan.subtasks, st);
    state.SnapshotCells();
    LifeAttempts(state.cfg, life, state.Snapshot(), st.id);
    hide Lives, DeadlineFollows, ReasonHolds;
    assert CellInv(state.CellOf(st.id)) && AskedInOrder(state.CellOf(st.id), state.clock);
  }
}
