/** The passes of the run loop are runs of the dispatch protocol, so whatever
    holds of every run holds of every task the coordinator serves. */
module Runs {
  import opened Basics
  import opened Plans
  import opened Payloads
  import opened Retry
  import opened Dispatch
  import opened Invariants
  import opened Budget
  import opened Confluence
  import opened Rounds
  import opened Safety
  import opened Timing
  import opened Deadlines
  import opened Attempts
  import opened TaskStates
  import opened Ticks
  import opened Restart
  import opened Coordination

  /** What a run is asked to keep to: clock readings at most `delta` apart, if
      given, and harmless refuses, if wanted. */
  datatype Conditions = Conditions(delta: Option<real>, harmless: bool)

  ghost predicate Conforms(cfg: Config, s: State, acts: seq<Action>, conditions: Conditions, end: State) {
    && Legal(cfg, s, acts) && Exec(cfg, s, acts) == end
    && (conditions.delta.Some? ==> LegalTimely(cfg, s, acts, conditions.delta.value))
    && (conditions.harmless ==> LegalHarmless(cfg, s, acts))
  }

  lemma {:induction false} ConformsConcat(cfg: Config, s: State, a: seq<Action>, conditions: Conditions, t: State, b: seq<Action>, end: State)
    requires Conforms(cfg, s, a, conditions, t) && Conforms(cfg, t, b, conditions, end)
    ensures Conforms(cfg, s, a + b, conditions, end)
    decreases |a|
  {
    if a == [] {
      assert a + b == b;
    } else {
      assert (a + b)[0] == a[0] && (a + b)[1..] == a[1..] + b;
      ConformsConcat(cfg, Apply(cfg, s, a[0]), a[1..], conditions, t, b, end);
    }
  }

  lemma {:induction false} AdvancesConform(cfg: Config, s: State, acts: seq<Action>, conditions: Conditions, end: State)
    requires Advances(cfg, s, acts, end)
    ensures Conforms(cfg, s, acts, conditions, end)
    decreases |acts|
  {
    if acts != [] {
      assert acts == [acts[0]] + acts[1..];
      AdvancesConform(cfg, Apply(cfg, s, acts[0]), acts[1..], conditions, end);
    }
  }

  lemma {:induction false} RepliesConform(cfg: Config, s: State, acts: seq<Action>, conditions: Conditions, end: State)
    requires Legal(cfg, s, acts) && Exec(cfg, s, acts) == end && (conditions.harmless ==> LegalHarmless(cfg, s, acts))
    requires forall i :: 0 <= i < |acts| ==> !acts[i].Sample?
    ensures Conforms(cfg, s, acts, conditions, end)
    decreases |acts|
  {
    if acts != [] {
      assert acts == [acts[0]] + acts[1..];
      RepliesConform(cfg, Apply(cfg, s, acts[0]), acts[1..], conditions, end);
    }
  }

  lemma {:induction false} RoutedAreReplies(cfg: Config, s: State, msgs: seq<Message>)
    requires Inv(cfg, s)
    ensures forall i :: 0 <= i < |Routed(cfg, s, msgs)| ==> !Routed(cfg, s, msgs)[i].Sample?
    decreases |msgs|
  {
    if msgs != [] {
      if ActionFor(s, msgs[0]).None? {
        RoutedAreReplies(cfg, s, msgs[1..]);
      } else {
        StepInv(cfg, s, ActionFor(s, msgs[0]).value);
        RoutedAreReplies(cfg, Apply(cfg, s, ActionFor(s, msgs[0]).value), msgs[1..]);
      }
    }
  }

  lemma ClockConforms(cfg: Config, s: State, now: real, conditions: Conditions)
    requires Quiescent(cfg, s) && now >= s.now && (conditions.delta.Some? ==> now <= s.now + conditions.delta.value)
    ensures Conforms(cfg, s, [Sample(now)], conditions, Observed(s, now))
  {
    var run, end := [Sample(now)], Observed(s, now);
    assert run[0] == Sample(now) && run[1..] == [];
    assert Legal(cfg, end, []) && LegalHarmless(cfg, end, []) && Exec(cfg, end, []) == end;
    assert Legal(cfg, s, run) && LegalHarmless(cfg, s, run) && Exec(cfg, s, run) == end;
    if conditions.delta.Some? {
      assert LegalTimely(cfg, end, [], conditions.delta.value);
      assert LegalTimely(cfg, s, run, conditions.delta.value);
    }
  }

  /** A pass keeps to the conditions: it comes soon enough, and the refuses among its
      replies are harmless where they find the task. */
  ghost predicate KeepsTo(cfg: Config, r: State, input: Input, conditions: Conditions) {
    && Inv(cfg, Observed(r, input.now))
    && (conditions.delta.Some? ==> input.now <= r.now + conditions.delta.value)
    && (conditions.harmless ==> LegalHarmless(cfg, Observed(r, input.now), Routed(cfg, Observed(r, input.now), input.msgs)))
  }

  /** A pass is a run. */
  lemma PassIsRun(cfg: Config, r: State, input: Input, conditions: Conditions) returns (acts: seq<Action>)
    requires Coherent(cfg.plan) && Inv(cfg, r) && Quiescent(cfg, r) && input.now >= r.now && KeepsTo(cfg, r, input, conditions)
    ensures Conforms(cfg, r, acts, conditions, PassOf(cfg, r, input))
  {
    var s1 := Observed(r, input.now);
    var s2 := AfterReplies(cfg, s1, input.msgs);
    var clock, replies := [Sample(input.now)], Routed(cfg, s1, input.msgs);
    RoutedInv(cfg, r, input.msgs, input.now);
    RoutedLegal(cfg, s1, input.msgs);
    RoutedAreReplies(cfg, s1, input.msgs);
    ClockConforms(cfg, r, input.now, conditions);
    RepliesConform(cfg, s1, replies, conditions, s2);
    var adv := AdvancedSettles(cfg, s2);
    AdvancesConform(cfg, s2, adv, conditions, Advanced(cfg, s2));
    ConformsConcat(cfg, r, clock, conditions, s1, replies, s2);
    ConformsConcat(cfg, r, clock + replies, conditions, s2, adv, Advanced(cfg, s2));
    acts := clock + replies + adv;
  }

  /** Every pass of the life keeps to the conditions. */
  ghost predicate WellBehaved(cfg: Config, life: Life, conditions: Conditions)
    decreases |life.inputs|
  {
    life.inputs == [] ||
    (WellBehaved(cfg, Earlier(life), conditions) &&
     forall r :: Lives(cfg, Earlier(life), r) ==> KeepsTo(cfg, r, LastInput(life), conditions))
  }

  /** Asking for nothing, every life is well behaved. */
  lemma {:induction false} AnyLifeWillDo(cfg: Config, life: Life, s: State)
    requires Lives(cfg, life, s)
    ensures WellBehaved(cfg, life, Conditions(None, false))
    decreases |life.inputs|
  {
    if life.inputs != [] {
      var r :| Lives(cfg, Earlier(life), r) && Follows(cfg, r, LastInput(life), s);
      AnyLifeWillDo(cfg, Earlier(life), r);
      RoutedInv(cfg, r, LastInput(life).msgs, LastInput(life).now);
      forall q | Lives(cfg, Earlier(life), q) ensures q == r {
        LifeDecidesState(cfg, Earlier(life), q, r);
      }
    }
  }

  /** A life is a run from registration. */
  lemma {:induction false} LifeIsRun(cfg: Config, life: Life, s: State, conditions: Conditions) returns (acts: seq<Action>)
    requires Lives(cfg, life, s) && WellBehaved(cfg, life, conditions)
    ensures Conforms(cfg, Initial(cfg, life.loaded, life.start), acts, conditions, s)
    decreases |life.inputs|
  {
    var init := Initial(cfg, life.loaded, life.start);
    if life.inputs == [] {
      InitialInv(cfg, life.loaded, life.start);
      acts := AdvancedSettles(cfg, init);
      AdvancesConform(cfg, init, acts, conditions, s);
    } else {
      var r :| Lives(cfg, Earlier(life), r) && Follows(cfg, r, LastInput(life), s);
      acts := LifeIsRun(cfg, Earlier(life), r, conditions);
      LifeDecidesState(cfg, Earlier(life), r, r);
      var more := PassIsRun(cfg, r, LastInput(life), conditions);
      ConformsConcat(cfg, init, acts, conditions, r, more, s);
      acts := acts + more;
    }
  }

  // ----- What the coordinator guarantees to a task -----

  /** Whatever the replies: bookkeeping, write-once reloaded results, effort. */
  ghost predicate WellKept(cfg: Config, life: Life, s: State) {
    && Inv(cfg, s) && MessagesCounted(s)
    && (forall id :: id in s.cells ==> |s.cells[id].sent| <= 1 + s.cells[id].retries <= 3 && s.cells[id].routed <= 3)
    && (forall id :: id in s.cells && id in life.loaded ==> s.cells[id].sent == [] && s.cells[id].result == Success(life.loaded[id]))
  }

  /** At any time a registered task is in the state its own life leads to, and
      well kept. */
  lemma RegisteredIsWellKept(c: Coordinator, t: string)
    requires c.Valid() && t in c.tasks
    ensures t in c.lives && Lives(c.tasks[t].cfg, c.lives[t], c.tasks[t].Snapshot())
    ensures WellKept(c.tasks[t].cfg, c.lives[t], c.tasks[t].Snapshot())
  {
    c.RegisteredLives(t);
    hide Coordinator.Valid, Lives, WellKept, Coordinator.Serves;
    LifeIsWellKept(c.tasks[t].cfg, c.lives[t], c.tasks[t].Snapshot());
  }

  lemma LifeIsWellKept(cfg: Config, life: Life, s: State)
    requires Lives(cfg, life, s)
    ensures WellKept(cfg, life, s)
  {
    AnyLifeWillDo(cfg, life, s);
    var run := LifeIsRun(cfg, life, s, Conditions(None, false));
    hide Lives, WellBehaved, Inv, Exec, Legal, MessagesCounted;
    ReachableInv(cfg, life.loaded, life.start, run);
    BoundedEffort(cfg, life.loaded, life.start, run);
    ReachableMessages(cfg, life.loaded, life.start, run);
    ReloadedStay(cfg, life.loaded, life.start, run, s);
  }

  lemma ReloadedStay(cfg: Config, loaded: map<Id, Content>, t: real, run: seq<Action>, s: State)
    requires Legal(cfg, Initial(cfg, loaded, t), run) && s == Exec(cfg, Initial(cfg, loaded, t), run)
    ensures forall id :: id in s.cells && id in loaded ==> s.cells[id].sent == [] && s.cells[id].result == Success(loaded[id])
  {
    hide Inv, Exec, Legal;
    forall id | id in s.cells && id in loaded ensures s.cells[id].sent == [] && s.cells[id].result == Success(loaded[id]) {
      ResumeSendsOnlyMissing(cfg, loaded, t, run, id);
    }
  }

  /** If moreover the refuses it was given are harmless, its requests are safe and
      stable. */
  lemma RegisteredIsSafe(c: Coordinator, t: string, st: Subtask)
    requires c.Valid() && t in c.tasks && st in c.tasks[t].cfg.plan.subtasks
    requires t in c.lives && WellBehaved(c.tasks[t].cfg, c.lives[t], Conditions(None, true))
    ensures SentOnceReadyAndAlike(c.tasks[t].Snapshot(), st)
  {
    c.RegisteredLives(t);
    hide Coordinator.Valid, Lives, WellBehaved, BuildPlan, SentOnceReadyAndAlike;
    LifeIsSafe(c.tasks[t].cfg, c.lives[t], c.tasks[t].Snapshot(), st);
  }

  lemma LifeIsSafe(cfg: Config, life: Life, s: State, st: Subtask)
    requires Lives(cfg, life, s) && WellBehaved(cfg, life, Conditions(None, true))
    requires cfg.plan == BuildPlan(cfg.task) && st in cfg.plan.subtasks
    ensures SentOnceReadyAndAlike(s, st)
  {
    var run := LifeIsRun(cfg, life, s, Conditions(None, true));
    SendsAreSafeAndStable(cfg.task, cfg.timeouts, life.loaded, life.start, run, st);
  }

  /** And those requests show the documents and the results of the record. */
  lemma RegisteredRequests(c: Coordinator, t: string, st: Subtask, r: Request)
    requires c.Valid() && t in c.tasks && st in c.tasks[t].cfg.plan.subtasks
    requires t in c.lives && WellBehaved(c.tasks[t].cfg, c.lives[t], Conditions(None, true))
    requires c.tasks[t].Shape() && st.id in c.tasks[t].sent && r in c.tasks[t].sent[st.id]
    ensures r.subtaskId == st.id && r.agent == st.agent
    ensures Carries(r.content, st.operation, c.tasks[t].task, c.tasks[t].results)
  {
    c.RegisteredLives(t);
    hide Coordinator.Valid, Lives, WellBehaved, BuildPlan, Carries;
    var cfg, s := c.tasks[t].cfg, c.tasks[t].Snapshot();
    FieldsShown(c.tasks[t], st.id);
    LifeRequests(cfg, c.lives[t], s, st, r, c.tasks[t].results);
  }

  lemma FieldsShown(state: TaskState, id: Id)
    requires state.Shape() && (id in state.sent || id in state.deadlines)
    requires exists st :: st in state.plan.subtasks && st.id == id
    ensures id in state.Snapshot().cells && state.Snapshot().cells[id] == state.CellOf(id)
    ensures HoldsResults(state.results, state.Snapshot())
  {
    var st :| st in state.plan.subtasks && st.id == id;
    EntryHasId(state.plan.subtasks, st);
    state.CellResults();
  }

  lemma LifeRequests(cfg: Config, life: Life, s: State, st: Subtask, r: Request, results: Results)
    requires Lives(cfg, life, s) && WellBehaved(cfg, life, Conditions(None, true)) && cfg.plan == BuildPlan(cfg.task)
    requires st in cfg.plan.subtasks && st.id in s.cells && r in s.cells[st.id].sent && HoldsResults(results, s)
    ensures r.subtaskId == st.id && r.agent == st.agent && Carries(r.content, st.operation, cfg.task, results)
  {
    var run := LifeIsRun(cfg, life, s, Conditions(None, true));
    hide Lives, WellBehaved, BuildPlan, Carries, Legal, Exec, LegalHarmless;
    RequestsCarryInputs(cfg.task, cfg.timeouts, life.loaded, life.start, run, st, r, results);
  }

  /** The running deadline is that of the last request. */
  ghost predicate DeadlineOnRecord(state: TaskState, timeouts: map<AgentName, real>, id: Id)
    reads state
  {
    id in state.deadlines ==>
      && id in state.sent && state.sent[id] != [] && id in Ids(state.plan)
      && Lasts(timeouts, Get(state.plan, id).agent, state.deadlines[id] - state.sent[id][|state.sent[id]| - 1].at)
  }

  /** The deadlines of a registered task follow the coordinator's timeouts. */
  lemma RegisteredDeadlines(c: Coordinator, t: string, id: Id)
    requires c.Valid() && t in c.tasks && c.tasks[t].Shape()
    ensures DeadlineOnRecord(c.tasks[t], c.timeouts, id)
  {
    c.RegisteredLives(t);
    hide Coordinator.Valid, Lives, BuildPlan, TaskState.Snapshot, TaskState.Shape, DeadlineOnRecord;
    LifeDeadlines(c.tasks[t], c.lives[t], id);
  }

  lemma LifeDeadlines(state: TaskState, life: Life, id: Id)
    requires state.Shape() && Lives(state.cfg, life, state.Snapshot())
    ensures DeadlineOnRecord(state, state.cfg.timeouts, id)
  {
    if id in state.deadlines {
      hide Lives, DeadlineFollows, AskedInOrder, ReasonHolds, Lasts;
      LifeAttempts(state.cfg, life, state.Snapshot(), id);
      DeadlineOfRecord(state, state.cfg.timeouts, id);
    }
  }

  lemma DeadlineOfRecord(state: TaskState, timeouts: map<AgentName, real>, id: Id)
    requires state.Shape() && id in state.deadlines && id in Ids(state.plan)
    requires id in state.Snapshot().cells
    requires DeadlineFollows(timeouts, Get(state.plan, id).agent, state.Snapshot().cells[id])
    ensures DeadlineOnRecord(state, timeouts, id)
  {
    hide Lasts;
    assert state.Snapshot().cells[id] == state.CellOf(id);
  }

  lemma LifeAttempts(cfg: Config, life: Life, s: State, id: Id)
    requires Lives(cfg, life, s) && id in Ids(cfg.plan)
    ensures id in s.cells && DeadlineFollows(cfg.timeouts, Get(cfg.plan, id).agent, s.cells[id])
    ensures AskedInOrder(s.cells[id], s.now) && ReasonHolds(s, Get(cfg.plan, id))
  {
    AnyLifeWillDo(cfg, life, s);
    var run := LifeIsRun(cfg, life, s, Conditions(None, false));
    hide Lives, WellBehaved, Legal, Exec, DeadlineFollows, AskedInOrder, ReasonHolds;
    ReachableAttempts(cfg, life.loaded, life.start, run, id);
    ReachableReasons(cfg, life.loaded, life.start, run, id);
  }

  /** The deadline is at or past the critical paths of a built plan. */
  ghost predicate Ample(cfg: Config, delta: real, deadline: real) {
    cfg.plan == BuildPlan(cfg.task) && (BuildPlanWellFormed(cfg.task); Sufficient(cfg, PlanRank(cfg.task), delta, deadline))
  }

  /** And if passes come at most delta apart, an ample deadline never finds a task
      at rest with work pending. */
  lemma LifeOutlivesDeadline(cfg: Config, life: Life, s: State, delta: real, deadline: real)
    requires TimeoutsNonNegative(cfg) && delta >= 0.0 && Ample(cfg, delta, deadline)
    requires Lives(cfg, life, s) && WellBehaved(cfg, life, Conditions(Some(delta), false))
    ensures HasPending(s) ==> s.now - s.startedAt <= deadline
  {
    LifeDecidesState(cfg, life, s, s);
    BuildPlanWellFormed(cfg.task);
    var run := LifeIsRun(cfg, life, s, Conditions(Some(delta), false));
    if HasPending(s) {
      SufficientNeverCutsOff(cfg, PlanRank(cfg.task), delta, life.loaded, life.start, run, s, deadline);
    }
  }

  /** So with an ample global deadline a tick concludes only finished tasks: what
      it concludes are the tasks that do not continue. */
  lemma OnlyFinishedAreConcluded(c: Coordinator, cfg: Config, life: Life, s: State, input: Input, end: State, delta: real)
    requires Lives(cfg, life, s) && Follows(cfg, s, input, end)
    requires TimeoutsNonNegative(cfg) && delta >= 0.0 && Ample(cfg, delta, c.globalDeadline)
    requires WellBehaved(cfg, Later(life, input), Conditions(Some(delta), false))
    ensures HasPending(end) <==> c.Continues(end)
  {
    LivesOn(cfg, life, s, input, end);
    LifeOutlivesDeadline(cfg, Later(life, input), end, delta, c.globalDeadline);
  }

  /** With the built-in timeouts nothing of a registered task is pending any more
      after the worst-case time. */
  lemma LifeEnds(cfg: Config, life: Life, s: State, delta: real)
    requires cfg.plan == BuildPlan(cfg.task) && cfg.timeouts == map[] && delta >= 0.0
    requires Lives(cfg, life, s) && WellBehaved(cfg, life, Conditions(Some(delta), false))
    ensures s.now > life.start + 2265.0 + 15.0 * delta ==> !HasPending(s)
  {
    var run := LifeIsRun(cfg, life, s, Conditions(Some(delta), false));
    DefaultWorstCase(cfg, delta, life.loaded, life.start, run);
  }
}
