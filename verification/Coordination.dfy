/** The coordinator's run loop over many tasks (src/agents/coordinator.py).
    The store does not fail here; validation of agent contents may. */
module Coordination {
  import opened Basics
  import opened Selections
  import opened Plans
  import opened Payloads
  import opened Dispatch
  import opened Invariants
  import opened Rounds
  import opened Starts
  import opened Ticks
  import opened Verdict
  import opened Idempotency
  import opened TaskStates
  import opened Artifacts
  import opened Handlers

  predicate IsTerminal(status: TaskStatus) {
    status == PARTIAL_READY || status == COMPLETED || status == FAILED
  }

  /** The terminal statuses among those written for a task. */
  function Terminals(written: seq<TaskStatus>): seq<TaskStatus> {
    if written == [] then []
    else
      var n := |written| - 1;
      if IsTerminal(written[n]) then Terminals(written[..n]) + [written[n]] else Terminals(written[..n])
  }

  lemma TerminalsAppend(written: seq<TaskStatus>, status: TaskStatus)
    ensures Terminals(written + [status]) == Terminals(written) + (if IsTerminal(status) then [status] else [])
  {
    assert (written + [status])[..|written|] == written;
  }

  /** The replies addressed to one task, in order. */
  function Mine(msgs: seq<Message>, taskId: string): seq<Message> {
    if msgs == [] then []
    else
      var n := |msgs| - 1;
      var before := Mine(msgs[..n], taskId);
      if msgs[n].taskId == taskId then before + [msgs[n]] else before
  }

  /** The messages that are not duplicates within the filter's memory. */
  function FirstDeliveries(capacity: nat, calls: seq<string>, msgs: seq<Message>): seq<Message> {
    if msgs == [] then []
    else
      var n := |msgs| - 1;
      var before := FirstDeliveries(capacity, calls, msgs[..n]);
      if Fresh(capacity, calls + MessageIds(msgs[..n]), msgs[n].messageId) then before + [msgs[n]] else before
  }

  function MessageIds(msgs: seq<Message>): seq<string> {
    seq(|msgs|, i requires 0 <= i < |msgs| => msgs[i].messageId)
  }

  lemma NothingDelivered(capacity: nat, calls: seq<string>, msgs: seq<Message>)
    ensures FirstDeliveries(capacity, calls, msgs[..0]) == [] && calls + MessageIds(msgs[..0]) == calls
  {
  }

  /** The positions of the messages that are not refused as duplicates. */
  ghost function FreshAt(capacity: nat, calls: seq<string>, msgs: seq<Message>): set<int> {
    set i | 0 <= i < |msgs| && Fresh(capacity, calls + MessageIds(msgs[..i]), msgs[i].messageId)
  }

  /** What passes the filter keeps its order. */
  lemma {:induction false} DeliveredInOrder(capacity: nat, calls: seq<string>, msgs: seq<Message>)
    ensures Selects(FirstDeliveries(capacity, calls, msgs), msgs, FreshAt(capacity, calls, msgs))
  {
    hide Fresh, MessageIds;
    var wanted := FreshAt(capacity, calls, msgs);
    if msgs == [] {
      NothingSelected<Message>(wanted);
    } else {
      var n := |msgs| - 1;
      DeliveredInOrder(capacity, calls, msgs[..n]);
      assert msgs == msgs[..n] + [msgs[n]];
      assert forall i :: 0 <= i < n ==> msgs[..n][..i] == msgs[..i];
      SelectsNext(FirstDeliveries(capacity, calls, msgs[..n]), msgs[..n], FreshAt(capacity, calls, msgs[..n]), msgs[n], wanted);
    }
  }

  /** The replies to a task are those addressed to it, in their order. */
  lemma {:induction false} MineInOrder(msgs: seq<Message>, taskId: string)
    ensures Selects(Mine(msgs, taskId), msgs, set i | 0 <= i < |msgs| && msgs[i].taskId == taskId)
  {
    var wanted := set i | 0 <= i < |msgs| && msgs[i].taskId == taskId;
    if msgs == [] {
      NothingSelected<Message>(wanted);
    } else {
      var n := |msgs| - 1;
      MineInOrder(msgs[..n], taskId);
      assert msgs == msgs[..n] + [msgs[n]];
      var before := set i | 0 <= i < n && msgs[..n][i].taskId == taskId;
      SelectsNext(Mine(msgs[..n], taskId), msgs[..n], before, msgs[n], wanted);
    }
  }

  lemma OneMore(capacity: nat, calls: seq<string>, msgs: seq<Message>, i: nat)
    requires i < |msgs|
    ensures MessageIds(msgs[..i + 1]) == MessageIds(msgs[..i]) + [msgs[i].messageId]
    ensures calls + MessageIds(msgs[..i + 1]) == (calls + MessageIds(msgs[..i])) + [msgs[i].messageId]
    ensures FirstDeliveries(capacity, calls, msgs[..i + 1]) ==
      FirstDeliveries(capacity, calls, msgs[..i]) +
        (if Fresh(capacity, calls + MessageIds(msgs[..i]), msgs[i].messageId) then [msgs[i]] else [])
  {
    assert msgs[..i + 1][..i] == msgs[..i];
  }

  /** What the store holds about one task: the statuses written, oldest first,
      and the artifact. */
  datatype Row = Row(statuses: seq<TaskStatus>, artifact: Option<Artifact>)

  /** No terminal status yet. */
  predicate Unconcluded(row: Row) {
    Terminals(row.statuses) == [] && row.artifact == None
  }

  /** Exactly one terminal status: that of a faithful artifact, or FAILED without
      an artifact if the contents do not pass validation. */
  ghost predicate ConcludedRow(row: Row, schemas: Schemas, plan: Plan, results: Results) {
    if PayloadAfter(schemas, plan.subtasks, results).Some? then
      && row.artifact.Some? && Faithful(row.artifact.value, plan, results)
      && Terminals(row.statuses) == [row.artifact.value.status]
    else
      row.artifact == None && Terminals(row.statuses) == [FAILED]
  }

  /** An artifact of the row was assembled from this view, at this time. */
  ghost predicate AssembledRow(row: Row, view: View, now: real) {
    row.artifact.Some? ==> AssembledFrom(row.artifact.value, view, now)
  }

  /** An artifact of the row shows the figures of the state. */
  ghost predicate ReportedRow(row: Row, plan: Plan, s: State) {
    row.artifact.Some? ==> ReportsOn(row.artifact.value, plan, s)
  }

  /** Between passes: at rest, with work pending. */
  ghost predicate AtRest(cfg: Config, s: State) {
    Quiescent(cfg, s) && HasPending(s)
  }

  /** One task in a table of tasks changed, to the given state. */
  datatype Change = Change(all: map<string, TaskState>, states: map<string, State>, taskId: string, end: State)

  function AsList(job: Option<PersistJob>): seq<PersistJob> {
    match job
    case Some(j) => [j]
    case None => []
  }

  /** The given replies take the tasks from one family of states to another and
      leave the jobs to be stored. */
  ghost predicate HaveReceived(cfgs: map<string, Config>, states: map<string, State>, replies: seq<Message>,
                               jobs: seq<PersistJob>, ends: map<string, State>) {
    && cfgs.Keys == states.Keys == ends.Keys
    && (forall job :: job in jobs ==> job.taskId in states)
    && (forall t :: t in states ==> Received(cfgs[t], t, states[t], replies, jobs, ends[t]))
  }

  ghost predicate Received(cfg: Config, taskId: string, s: State, replies: seq<Message>, jobs: seq<PersistJob>, end: State) {
    && cfg.task.id == taskId && Inv(cfg, s)
    && end == AfterReplies(cfg, s, Mine(replies, taskId))
    && JobsFor(jobs, taskId) == JobsOf(cfg, s, Mine(replies, taskId))
  }

  /** All but some tasks have seen the new clock reading. */
  ghost predicate HaveObserved(start: map<string, State>, states: map<string, State>, todo: set<string>, now: real) {
    && start.Keys == states.Keys
    && (forall t :: t in start ==> states[t] == if t in todo then start[t] else Observed(start[t], now))
    && (forall t :: t in todo && t in start ==> start[t].now <= now)
  }

  lemma NothingObserved(cfgs: map<string, Config>, start: map<string, State>, clock: real, now: real)
    requires AllRunnable(cfgs, start, clock) && clock <= now
    ensures HaveObserved(start, start, start.Keys, now)
  {
  }

  lemma ObservedOneMore(start: map<string, State>, states: map<string, State>, todo: set<string>, now: real, t: string)
    requires HaveObserved(start, states, todo, now) && t in todo && t in start
    ensures states[t].now <= now
    ensures HaveObserved(start, states[t := Observed(states[t], now)], todo - {t}, now)
  {
  }

  lemma NothingReceived(cfgs: map<string, Config>, states: map<string, State>)
    requires cfgs.Keys == states.Keys
    requires forall t :: t in states ==> cfgs[t].task.id == t && Inv(cfgs[t], states[t])
    ensures HaveReceived(cfgs, states, [], [], states)
  {
  }

  lemma ReceivedElsewhere(cfgs: map<string, Config>, states: map<string, State>, replies: seq<Message>,
                          jobs: seq<PersistJob>, ends: map<string, State>, m: Message)
    requires HaveReceived(cfgs, states, replies, jobs, ends) && m.taskId !in states
    ensures HaveReceived(cfgs, states, replies + [m], jobs, ends)
  {
    assert (replies + [m])[..|replies|] == replies;
    forall t | t in states ensures Received(cfgs[t], t, states[t], replies + [m], jobs, ends[t]) {
      assert Mine(replies + [m], t) == Mine(replies, t);
    }
  }

  lemma JobsForAppend(jobs: seq<PersistJob>, job: PersistJob, taskId: string)
    ensures JobsFor(jobs + [job], taskId) == JobsFor(jobs, taskId) + (if job.taskId == taskId then [job] else [])
  {
    assert (jobs + [job])[..|jobs|] == jobs;
  }

  lemma ReceivedOneMore(cfg: Config, taskId: string, s: State, replies: seq<Message>, jobs: seq<PersistJob>,
                        t: State, m: Message, job: Option<PersistJob>, end: State)
    requires Received(cfg, taskId, s, replies, jobs, t) && m.taskId == taskId
    requires Reacted(cfg, t, ActionFor(t, m), end) && job == JobFor(cfg, t, m)
    ensures Received(cfg, taskId, s, replies + [m], jobs + AsList(job), end)
  {
    var mine := Mine(replies, taskId);
    assert (replies + [m])[..|replies|] == replies;
    assert (mine + [m])[..|mine|] == mine;
    AfterOneMore(cfg, s, mine, m);
    if job.Some? {
      JobsForAppend(jobs, job.value, taskId);
    } else {
      assert jobs + AsList(job) == jobs;
    }
  }

  lemma ReceivedByOther(cfg: Config, taskId: string, s: State, replies: seq<Message>, jobs: seq<PersistJob>,
                        t: State, m: Message, job: Option<PersistJob>)
    requires Received(cfg, taskId, s, replies, jobs, t) && m.taskId != taskId
    requires job.Some? ==> job.value.taskId != taskId
    ensures Received(cfg, taskId, s, replies + [m], jobs + AsList(job), t)
  {
    assert (replies + [m])[..|replies|] == replies;
    if job.Some? {
      JobsForAppend(jobs, job.value, taskId);
    } else {
      assert jobs + AsList(job) == jobs;
    }
  }

  lemma ReceivedHere(cfgs: map<string, Config>, states: map<string, State>, replies: seq<Message>,
                     jobs: seq<PersistJob>, ends: map<string, State>, m: Message, job: Option<PersistJob>, end: State)
    requires HaveReceived(cfgs, states, replies, jobs, ends) && m.taskId in states
    requires Reacted(cfgs[m.taskId], ends[m.taskId], ActionFor(ends[m.taskId], m), end)
    requires job == JobFor(cfgs[m.taskId], ends[m.taskId], m)
    requires job.Some? ==> job.value.taskId == m.taskId
    ensures HaveReceived(cfgs, states, replies + [m], jobs + AsList(job), ends[m.taskId := end])
  {
    hide Received, Inv, Reacted, JobFor, ActionFor;
    ReceivedOneMore(cfgs[m.taskId], m.taskId, states[m.taskId], replies, jobs, ends[m.taskId], m, job, end);
    forall t | t in states && t != m.taskId
      ensures Received(cfgs[t], t, states[t], replies + [m], jobs + AsList(job), ends[t])
    {
      ReceivedByOther(cfgs[t], t, states[t], replies, jobs, ends[t], m, job);
    }
  }

  /** The registered tasks and the store. */
  datatype Table = Table(tasks: map<string, TaskState>, store: map<string, Row>)

  function RowIn(store: map<string, Row>, taskId: string): Row {
    if taskId in store then store[taskId] else Row([], None)
  }

  ghost function ConfigsOf(tasks: map<string, TaskState>): map<string, Config> {
    map t | t in tasks :: tasks[t].cfg
  }

  predicate AllAt(states: map<string, State>, now: real) {
    forall t :: t in states ==> states[t].now == now
  }

  /** A task between passes that has this life behind it. */
  ghost predicate Idle(cfg: Config, life: Life, s: State, now: real) {
    AtRest(cfg, s) && s.now <= now && Lives(cfg, life, s)
  }

  ghost predicate AllIdle(tasks: map<string, TaskState>, lives: map<string, Life>, states: map<string, State>, now: real) {
    forall t :: t in tasks ==> t in states && t in lives && Idle(tasks[t].cfg, lives[t], states[t], now)
  }

  /** Every task has one more pass behind it. */
  ghost function LivesAfter(tasks: map<string, TaskState>, lives: map<string, Life>, replies: seq<Message>, now: real)
    : map<string, Life>
  {
    map t | t in tasks && t in lives :: Later(lives[t], Input(Mine(replies, t), now))
  }

  class Coordinator {
    const timeouts: map<AgentName, real>
    const globalDeadline: real
    const schemas: Schemas
    const receiver: IdempotentReceiver
    var tasks: map<string, TaskState>
    var inflight: int
    var store: map<string, Row>
    ghost var clock: real
    ghost var lives: map<string, Life>

    function RowOf(taskId: string): Row
      reads this`store
    {
      RowIn(store, taskId)
    }

    constructor (timeouts: map<AgentName, real>, globalDeadline: real, schemas: Schemas, cacheSize: nat, ghost now: real)
      requires cacheSize > 0
      ensures Valid() && tasks == map[] && inflight == 0 && store == map[] && clock == now
      ensures fresh(receiver)
    {
      this.timeouts := timeouts;
      this.globalDeadline := globalDeadline;
      this.schemas := schemas;
      tasks, inflight, store, clock, lives := map[], 0, map[], now, map[];
      receiver := new IdempotentReceiver(cacheSize);
    }

    /** The records of the given tasks are valid and stand for the given states. */
    ghost predicate Tracks(all: map<string, TaskState>, states: map<string, State>)
      reads all.Values
    {
      && all.Keys == states.Keys
      && (forall t :: t in all ==> all[t].task.id == t && Serves(all[t].cfg))
      && (forall t :: t in all ==> all[t].Shows(states[t]))
    }

    /** The task is run by its built plan and with these timeouts. */
    ghost predicate Serves(cfg: Config) {
      cfg.timeouts == timeouts && cfg.plan == BuildPlan(cfg.task)
    }

    ghost function Snapshots(): map<string, State>
      reads this`tasks, tasks.Values
    {
      map t | t in tasks :: tasks[t].Snapshot()
    }

    ghost predicate NoneConcluded()
      reads this`tasks, this`store
    {
      forall t :: t in tasks ==> Unconcluded(RowOf(t))
    }

    /** Every registered task is at rest with work pending and not concluded, and
        its state is the one its own life leads to. */
    ghost predicate Valid()
      reads this, receiver, tasks.Values
    {
      && receiver.Valid() && inflight == |tasks|
      && Tracks(tasks, Snapshots()) && NoneConcluded() && AllIdle(tasks, lives, Snapshots(), clock)
    }

    /** A registered task is run by its built plan, and its state is the one its own
        life leads to: other tasks have no part in it. */
    lemma RegisteredLives(t: string)
      requires Valid() && t in tasks
      ensures t in lives && Serves(tasks[t].cfg) && Lives(tasks[t].cfg, lives[t], tasks[t].Snapshot())
    {
      hide TaskState.Shows, TaskState.Snapshot, Lives, IdempotentReceiver.Valid, Serves;
      assert Snapshots()[t] == tasks[t].Snapshot() && Idle(tasks[t].cfg, lives[t], Snapshots()[t], clock);
    }

    method SetStatus(taskId: string, status: TaskStatus)
      modifies this`store
      ensures store == old(store)[taskId := Row(old(RowOf(taskId)).statuses + [status], old(RowOf(taskId)).artifact)]
    {
      store := store[taskId := Row(RowOf(taskId).statuses + [status], RowOf(taskId).artifact)];
    }

    method SaveArtifact(taskId: string, artifact: Artifact)
      modifies this`store
      ensures store == old(store)[taskId := Row(old(RowOf(taskId)).statuses, Some(artifact))]
    {
      store := store[taskId := Row(RowOf(taskId).statuses, Some(artifact))];
    }

    /** Relative to earlier rows, the row of the task was concluded. */
    ghost predicate Finalized(rows: map<string, Row>, state: TaskState, now: real)
      reads this`store, state
    {
      var id := state.task.id;
      && id in store && store == rows[id := store[id]]
      && ConcludedRow(store[id], schemas, state.plan, state.results) && AssembledRow(store[id], ViewOf(state), now)
    }

    /** The writes of `_finalize`. */
    method Report(state: TaskState, payload: ResultPayload, status: TaskStatus, now: real)
      requires Unconcluded(RowOf(state.task.id)) && status == DetermineFinalStatus(state.plan, state.results)
      requires PayloadAfter(schemas, state.plan.subtasks, state.results) == Some(payload)
      modifies this`store
      ensures Finalized(old(store), state, now)
    {
      var view := ViewOf(state);
      ArtifactIsFaithful(view, schemas, now);
      var artifact := ArtifactOf(view, payload, status, now);
      TerminalsAppend(RowOf(state.task.id).statuses, status);
      SaveArtifact(state.task.id, artifact);
      SetStatus(state.task.id, status);
    }

    /** `_finalize`: false stands for an exception out of artifact assembly, in
        which case nothing has been written. */
    method Finalize(state: TaskState, now: real) returns (ok: bool)
      requires Unconcluded(RowOf(state.task.id))
      modifies this`store
      ensures ok <==> PayloadAfter(schemas, state.plan.subtasks, state.results).Some?
      ensures !ok ==> store == old(store)
      ensures ok ==> Finalized(old(store), state, now)
    {
      var status := DetermineFinalStatus(state.plan, state.results);
      var payload := AssemblePayload(schemas, state.plan, state.results);
      if payload.None? {
        return false;
      }
      Report(state, payload.value, status, now);
      ok := true;
    }

    /** The first half of `_tick`: duplicates are dropped. */
    method Receive(msgs: seq<Message>) returns (replies: seq<Message>)
      requires receiver.Valid()
      modifies receiver
      ensures receiver.Valid()
      ensures replies == FirstDeliveries(receiver.cacheSize, old(receiver.calls), msgs)
      ensures Selects(replies, msgs, FreshAt(receiver.cacheSize, old(receiver.calls), msgs))
      ensures receiver.calls == old(receiver.calls) + MessageIds(msgs)
    {
      DeliveredInOrder(receiver.cacheSize, receiver.calls, msgs);
      hide Selects, FreshAt, FirstDeliveries, MessageIds, Fresh;
      NothingDelivered(receiver.cacheSize, receiver.calls, msgs);
      replies := [];
      for i := 0 to |msgs|
        invariant receiver.Valid()
        invariant replies == FirstDeliveries(receiver.cacheSize, old(receiver.calls), msgs[..i])
        invariant receiver.calls == old(receiver.calls) + MessageIds(msgs[..i])
      {
        OneMore(receiver.cacheSize, old(receiver.calls), msgs, i);
        var accepted := receiver.Accept(msgs[i].messageId);
        if accepted {
          replies := replies + [msgs[i]];
        }
      }
      assert msgs[..|msgs|] == msgs;
    }

    // ----- The end of a pass for one task -----

    /** The task stays registered after the pass. */
    ghost predicate Continues(s: State) {
      HasPending(s) && s.now - s.startedAt <= globalDeadline
    }

    /** Relative to earlier contents of the fields, nothing happened. */
    ghost predicate Same(before: map<string, TaskState>, count: int, rows: map<string, Row>)
      reads this
    {
      tasks == before && inflight == count && store == rows
    }

    /** Relative to earlier contents of the fields, the task was removed with its verdict. */
    ghost predicate Removed(before: map<string, TaskState>, count: int, rows: map<string, Row>,
                            taskId: string, state: TaskState, now: real)
      reads this, state
    {
      && tasks == before - {taskId} && inflight == count - 1
      && taskId in store && store == rows[taskId := store[taskId]]
      && ConcludedRow(store[taskId], schemas, state.plan, state.results) && AssembledRow(store[taskId], ViewOf(state), now)
    }

    /** `_maybe_finalize`. */
    method MaybeFinalize(taskId: string, state: TaskState, now: real) returns (ok: bool)
      requires taskId in tasks && state.task.id == taskId && Unconcluded(RowOf(taskId))
      modifies this`tasks, this`inflight, this`store
      ensures state.pending != {} ==> ok && Same(old(tasks), old(inflight), old(store))
      ensures state.pending == {} && ok ==> Removed(old(tasks), old(inflight), old(store), taskId, state, now)
      ensures !ok ==> Same(old(tasks), old(inflight), old(store))
      ensures !ok ==> PayloadAfter(schemas, state.plan.subtasks, state.results).None?
    {
      if state.pending != {} {
        return true;
      }
      ok := Finalize(state, now);
      if ok {
        tasks := tasks - {taskId};
        inflight := inflight - 1;
      }
    }

    /** `_deadline_finalize`. */
    method DeadlineFinalize(taskId: string, state: TaskState, now: real) returns (ok: bool)
      requires taskId in tasks && state.task.id == taskId && Unconcluded(RowOf(taskId))
      modifies this`tasks, this`inflight, this`store
      ensures ok ==> Removed(old(tasks), old(inflight), old(store), taskId, state, now)
      ensures !ok ==> Same(old(tasks), old(inflight), old(store))
      ensures !ok ==> PayloadAfter(schemas, state.plan.subtasks, state.results).None?
    {
      ok := Finalize(state, now);
      if ok {
        tasks := tasks - {taskId};
        inflight := inflight - 1;
      }
    }

    /** `_abandon`. */
    method Abandon(taskId: string)
      modifies this`tasks, this`inflight, this`store
      ensures tasks == old(tasks) - {taskId}
      ensures inflight == old(inflight) - (if taskId in old(tasks) then 1 else 0)
      ensures store == old(store)[taskId := Row(old(RowOf(taskId)).statuses + [FAILED], old(RowOf(taskId)).artifact)]
    {
      if taskId in tasks {
        tasks := tasks - {taskId};
        inflight := inflight - 1;
      }
      SetStatus(taskId, FAILED);
    }

    /** What follows `_advance` in the loop over the tasks, with its exception handler. */
    method Conclude(taskId: string, state: TaskState, now: real)
      requires taskId in tasks && state.task.id == taskId && Unconcluded(RowOf(taskId))
      modifies this`tasks, this`inflight, this`store
      ensures state.pending != {} && now - state.startedAt <= globalDeadline ==>
        Same(old(tasks), old(inflight), old(store))
      ensures state.pending == {} || now - state.startedAt > globalDeadline ==>
        Removed(old(tasks), old(inflight), old(store), taskId, state, now)
    {
      TerminalsAppend(RowOf(taskId).statuses, FAILED);
      var ok := MaybeFinalize(taskId, state, now);
      if ok && taskId in tasks && now - state.startedAt > globalDeadline {
        ok := DeadlineFinalize(taskId, state, now);
      }
      if !ok {
        Abandon(taskId);
      }
    }

    // ----- The pass over all tasks -----

    /** Changing the record of one task leaves the others alone. */
    twostate lemma TracksChange(c: Change)
      requires c.taskId in c.all && old(Tracks(c.all, c.states))
      requires forall t :: t in c.all && t != c.taskId ==> unchanged(c.all[t])
      requires c.all[c.taskId].Shows(c.end)
      ensures Tracks(c.all, c.states[c.taskId := c.end])
    {
      hide TaskState.Shows;
    }

    ghost function Entries(): Table
      reads this`tasks, this`store
    {
      Table(tasks, store)
    }

    /** Kept with work pending, or removed with its verdict. */
    ghost predicate Disposed(after: Table, taskId: string, state: TaskState, end: State) {
      if Continues(end) then
        taskId in after.tasks && after.tasks[taskId] == state && Unconcluded(RowIn(after.store, taskId))
      else
        && taskId !in after.tasks && ConcludedRow(RowIn(after.store, taskId), schemas, state.plan, ResultsOf(end))
        && ReportedRow(RowIn(after.store, taskId), state.plan, end)
    }

    /** Only the entry and the row of one task may have changed. */
    ghost predicate OnlyTouched(taskId: string, before: Table, after: Table) {
      && (after.tasks == before.tasks || after.tasks == before.tasks - {taskId})
      && (after.store == before.store ||
          (taskId in after.store && after.store == before.store[taskId := after.store[taskId]]))
    }

    lemma SizeAfterRemoval(m: map<string, TaskState>, key: string)
      requires key in m
      ensures |m - {key}| == |m| - 1
    {
      assert (m - {key}).Keys == m.Keys - {key};
    }

    /** One turn of the loop over the tasks in `_tick`. */
    method SettleTask(taskId: string, state: TaskState, ghost s: State, now: real) returns (ghost end: State)
      requires taskId in tasks && tasks[taskId] == state && state.task.id == taskId
      requires Serves(state.cfg) && state.Shows(s) && s.now == now
      requires Unconcluded(RowOf(taskId)) && inflight == |tasks|
      modifies this`tasks, this`inflight, this`store, state
      ensures state.Shows(end) && end.now == now && SettledFrom(state.cfg, s, end)
      ensures Disposed(Entries(), taskId, state, end) && inflight == |tasks|
      ensures OnlyTouched(taskId, old(Entries()), Entries())
    {
      state.ShownInv(s);
      Advance(state, timeouts, now);
      end := state.Snapshot();
      AdvancedNow(state.cfg, s);
      state.PendingShown();
      state.ResultsMatch();
      SizeAfterRemoval(tasks, taskId);
      Conclude(taskId, state, now);
      FiguresShown(state, now, RowOf(taskId));
    }

    lemma FiguresShown(state: TaskState, now: real, row: Row)
      requires state.Valid() && state.clock == now
      ensures AssembledRow(row, ViewOf(state), now) ==> ReportedRow(row, state.plan, state.Snapshot())
    {
      if row.artifact.Some? && AssembledFrom(row.artifact.value, ViewOf(state), now) {
        AssembledReports(state, row.artifact.value);
      }
    }

    /** Some tasks are still to be advanced; the others have been. */
    ghost predicate Progress(start: Table, now: Table, todo: set<string>,
                             states: map<string, State>, ends: map<string, State>) {
      var all := start.tasks;
      && todo <= now.tasks.Keys <= all.Keys == states.Keys == ends.Keys
      && (forall t :: t in now.tasks ==> now.tasks[t] == all[t])
      && (forall t :: t in todo ==> ends[t] == states[t] && Unconcluded(RowIn(now.store, t)))
      && (forall t :: t in all && t !in todo ==> SettledFrom(all[t].cfg, states[t], ends[t]))
      && (forall t :: t in all && t !in todo ==> Disposed(now, t, all[t], ends[t]))
      && (forall t :: t in all ==> ends[t].now == states[t].now)
      && (forall t :: t !in all ==> RowIn(now.store, t) == RowIn(start.store, t))
    }

    lemma ProgressStart(states: map<string, State>)
      requires tasks.Keys == states.Keys
      requires NoneConcluded()
      ensures Progress(Entries(), Entries(), tasks.Keys, states, states)
    {
    }

    lemma ProgressAt(start: Table, todo: set<string>, states: map<string, State>, ends: map<string, State>, t: string)
      requires Progress(start, Entries(), todo, states, ends) && t in todo
      ensures t in tasks && t in start.tasks && tasks[t] == start.tasks[t]
      ensures t in ends && t in states && ends[t] == states[t] && Unconcluded(RowOf(t))
    {
    }

    lemma StaysDisposed(t: string, before: Table, after: Table, x: string, state: TaskState, end: State)
      requires OnlyTouched(t, before, after) && x != t && Disposed(before, x, state, end)
      ensures Disposed(after, x, state, end)
    {
      assert RowIn(after.store, x) == RowIn(before.store, x);
    }

    lemma ProgressMade(start: Table, before: Table, after: Table, todo: set<string>,
                       states: map<string, State>, ends: map<string, State>, t: string, end: State)
      requires Progress(start, before, todo, states, ends) && t in todo
      requires OnlyTouched(t, before, after)
      requires SettledFrom(start.tasks[t].cfg, states[t], end) && Disposed(after, t, start.tasks[t], end)
      requires end.now == states[t].now
      ensures Progress(start, after, todo - {t}, states, ends[t := end])
    {
      hide Disposed, SettledFrom, Unconcluded, OnlyTouched, RowIn;
      OthersDisposed(start, before, after, todo, states, ends, t);
      StillListed(start, before, after, t, states, ends, todo);
    }

    lemma OthersDisposed(start: Table, before: Table, after: Table, todo: set<string>,
                         states: map<string, State>, ends: map<string, State>, t: string)
      requires Progress(start, before, todo, states, ends) && OnlyTouched(t, before, after)
      ensures forall x :: x in start.tasks && x != t && x !in todo ==> Disposed(after, x, start.tasks[x], ends[x])
    {
      hide Disposed, SettledFrom, Unconcluded, OnlyTouched, RowIn;
      forall x | x in start.tasks && x != t && x !in todo
        ensures Disposed(after, x, start.tasks[x], ends[x])
      {
        StaysDisposed(t, before, after, x, start.tasks[x], ends[x]);
      }
    }

    lemma StillListed(start: Table, before: Table, after: Table, t: string,
                      states: map<string, State>, ends: map<string, State>, todo: set<string>)
      requires Progress(start, before, todo, states, ends) && t in todo
      requires OnlyTouched(t, before, after) && t in start.tasks
      ensures todo - {t} <= after.tasks.Keys <= start.tasks.Keys
      ensures forall x :: x in after.tasks ==> after.tasks[x] == start.tasks[x]
      ensures forall x :: x != t ==> RowIn(after.store, x) == RowIn(before.store, x)
    {
      hide Disposed, SettledFrom, Unconcluded;
    }

    /** One turn of the loop over the tasks, seen from all of them. */
    method SettleTurn(taskId: string, ghost start: Table, ghost todo: set<string>, ghost states: map<string, State>,
                      ghost ends: map<string, State>, now: real) returns (ghost after: map<string, State>)
      requires Tracks(start.tasks, ends) && inflight == |tasks|
      requires Progress(start, Entries(), todo, states, ends) && taskId in todo && taskId in ends && ends[taskId].now == now
      modifies this`tasks, this`inflight, this`store, start.tasks.Values
      ensures Tracks(start.tasks, after) && inflight == |tasks|
      ensures Progress(start, Entries(), todo - {taskId}, states, after)
    {
      hide TaskState.Shows, Progress, Disposed, SettledFrom, Unconcluded, OnlyTouched, ConcludedRow;
      ProgressAt(start, todo, states, ends, taskId);
      label before:
      ghost var end := SettleTask(taskId, tasks[taskId], ends[taskId], now);
      TracksChange@before(Change(start.tasks, ends, taskId, end));
      ProgressMade(start, old(Entries()), Entries(), todo, states, ends, taskId, end);
      after := ends[taskId := end];
    }

    /** The loop over the tasks in `_tick`. */
    method SettleTasks(ghost states: map<string, State>, now: real) returns (ghost ends: map<string, State>)
      requires Tracks(tasks, states) && tasks.Keys == states.Keys && inflight == |tasks|
      requires AllAt(states, now) && NoneConcluded()
      modifies this`tasks, this`inflight, this`store, tasks.Values
      ensures Tracks(old(tasks), ends) && inflight == |tasks|
      ensures Progress(old(Entries()), Entries(), {}, states, ends)
    {
      hide TaskState.Shows, Progress, Tracks, Unconcluded;
      var todo := tasks.Keys;
      ends := states;
      ProgressStart(states);
      while todo != {}
        invariant Tracks(old(tasks), ends) && inflight == |tasks|
        invariant Progress(old(Entries()), Entries(), todo, states, ends)
        decreases todo
      {
        var taskId :| taskId in todo;
        ProgressAt(old(Entries()), todo, states, ends, taskId);
        ends := SettleTurn(taskId, old(Entries()), todo, states, ends, now);
        todo := todo - {taskId};
      }
    }

    /** Every task sees the new clock reading. */
    ghost method ObserveTasks(now: real) returns (states: map<string, State>)
      requires Valid() && now >= clock
      modifies this`clock, tasks.Values
      ensures clock == now && Tracks(tasks, states)
      ensures HaveObserved(old(Snapshots()), states, {}, now)
    {
      hide TaskState.Shows, Valid, HaveObserved, AllRunnable, Snapshots, AllLive, NoneConcluded, IdempotentReceiver.Valid, Inv,
           Coherent, Serves;
      ValidParts();
      states := Snapshots();
      var start, todo := states, tasks.Keys;
      NothingObserved(Configs(), states, clock, now);
      while todo != {}
        invariant todo <= tasks.Keys && Tracks(tasks, states)
        invariant HaveObserved(start, states, todo, now)
        decreases todo
      {
        var t :| t in todo;
        ObservedOneMore(start, states, todo, now, t);
        label before:
        var end := tasks[t].Observe(states[t], now);
        TracksChange@before(Change(tasks, states, t, end));
        states := states[t := end];
        todo := todo - {t};
      }
      clock := now;
    }

    method RouteOne(state: TaskState, ghost s: State, m: Message, now: real)
      returns (job: Option<PersistJob>, ghost end: State)
      requires state.Shows(s) && s.now == now
      modifies state
      ensures state.Shows(end) && end.now == now
      ensures Reacted(state.cfg, s, ActionFor(s, m), end) && job == JobFor(state.cfg, s, m)
      ensures job.Some? ==> job.value.taskId == state.task.id
    {
      job := RouteReply(state, m, now);
      end := state.Snapshot();
    }

    /** The loop over the replies in `_tick`. */
    method RouteReplies(replies: seq<Message>, ghost cfgs: map<string, Config>, ghost states: map<string, State>, now: real)
      returns (jobs: seq<PersistJob>, ghost ends: map<string, State>)
      requires Tracks(tasks, states) && cfgs == Configs() && AllSeen(cfgs, states, now)
      modifies tasks.Values
      ensures Tracks(tasks, ends) && HaveReceived(cfgs, states, replies, jobs, ends)
      ensures AllAt(ends, now) && ends.Keys == tasks.Keys
    {
      hide TaskState.Shows, Inv, HaveReceived, Tracks;
      jobs, ends := [], states;
      assert ends.Keys == tasks.Keys;
      NothingReceived(cfgs, states);
      for i := 0 to |replies|
        invariant Tracks(tasks, ends) && HaveReceived(cfgs, states, replies[..i], jobs, ends)
        invariant AllAt(ends, now) && ends.Keys == tasks.Keys
      {
        assert replies[..i + 1] == replies[..i] + [replies[i]];
        jobs, ends := RouteTurn(replies[i], cfgs, states, replies[..i], jobs, ends, now);
      }
      assert replies[..|replies|] == replies;
    }

    /** One turn of that loop: a reply for a task that is not registered is dropped. */
    method RouteTurn(m: Message, ghost cfgs: map<string, Config>, ghost states: map<string, State>, ghost before: seq<Message>,
                     soFar: seq<PersistJob>, ghost were: map<string, State>, now: real)
      returns (jobs: seq<PersistJob>, ghost ends: map<string, State>)
      requires Tracks(tasks, were) && cfgs == Configs() && cfgs.Keys == states.Keys
      requires HaveReceived(cfgs, states, before, soFar, were) && AllAt(were, now) && were.Keys == tasks.Keys
      modifies tasks.Values
      ensures Tracks(tasks, ends) && HaveReceived(cfgs, states, before + [m], jobs, ends)
      ensures AllAt(ends, now) && ends.Keys == tasks.Keys
    {
      hide TaskState.Shows, Inv, HaveReceived, Reacted, JobFor, ActionFor, Serves;
      assert m.taskId in tasks ==> tasks[m.taskId].task.id == m.taskId;
      jobs, ends := soFar, were;
      if m.taskId !in tasks {
        ReceivedElsewhere(cfgs, states, before, jobs, ends, m);
        return;
      }
      label start:
      var job;
      ghost var end;
      job, end := RouteOne(tasks[m.taskId], ends[m.taskId], m, now);
      ReceivedHere(cfgs, states, before, jobs, ends, m, job, end);
      TracksChange@start(Change(tasks, ends, m.taskId, end));
      jobs, ends := jobs + AsList(job), ends[m.taskId := end];
    }

    /** The parameters of the registered tasks. */
    ghost function Configs(): map<string, Config>
      reads this`tasks
    {
      ConfigsOf(tasks)
    }

    /** The tasks that stay registered are those with work pending within the
        global deadline; the others have been concluded. */
    ghost predicate AllDisposed(start: Table, after: Table, ends: map<string, State>) {
      && after.tasks.Keys <= start.tasks.Keys == ends.Keys
      && (forall t :: t in after.tasks ==> after.tasks[t] == start.tasks[t])
      && (forall t :: t in start.tasks ==> Disposed(after, t, start.tasks[t], ends[t]))
      && (forall t :: t !in start.tasks ==> RowIn(after.store, t) == RowIn(start.store, t))
    }

    lemma ValidParts()
      requires Valid()
      ensures AllRunnable(Configs(), Snapshots(), clock)
      ensures receiver.Valid() && inflight == |tasks| && NoneConcluded()
      ensures Tracks(tasks, Snapshots()) && Snapshots().Keys == tasks.Keys
      ensures AllLive(Configs(), lives, Snapshots())
    {
      hide TaskState.Shows, TaskState.Snapshot, Inv, Quiescent, HasPending, Unconcluded;
      forall t | t in tasks ensures Runnable(Configs()[t], t, Snapshots()[t]) {
        tasks[t].ShownInv(Snapshots()[t]);
      }
    }

    lemma ShownAre(all: map<string, TaskState>, ends: map<string, State>)
      requires Tracks(all, ends) && tasks.Keys <= all.Keys && forall t :: t in tasks ==> tasks[t] == all[t]
      ensures Tracks(tasks, Snapshots()) && forall t :: t in tasks ==> Snapshots()[t] == ends[t]
    {
      hide TaskState.Shows, TaskState.Snapshot;
      forall t | t in tasks ensures tasks[t].Snapshot() == ends[t] && tasks[t].Shows(Snapshots()[t]) {
        tasks[t].ShownInv(ends[t]);
      }
    }

    lemma ValidAgain(start: Table, received: map<string, State>, ends: map<string, State>)
      requires Tracks(start.tasks, ends) && AllDisposed(start, Entries(), ends)
      requires receiver.Valid() && inflight == |tasks|
      requires AllSettled(ConfigsOf(start.tasks), received, ends) && AllAt(received, clock)
      requires AllLive(ConfigsOf(start.tasks), lives, ends)
      ensures Valid()
    {
      hide TaskState.Shows, TaskState.Snapshot, Idle, Unconcluded, IdempotentReceiver.Valid, Snapshots, Disposed, AllSettled,
           AllAt, AllLive;
      StillAtRest(start, received, ends);
      ValidFrom(map t | t in tasks :: ends[t]);
    }

    lemma ValidFrom(ends: map<string, State>)
      requires receiver.Valid() && inflight == |tasks|
      requires Tracks(tasks, ends) && NoneConcluded() && AllIdle(tasks, lives, ends, clock)
      ensures Valid()
    {
      ShownAre(tasks, ends);
      hide TaskState.Shows, TaskState.Snapshot, Idle, Unconcluded, IdempotentReceiver.Valid, Snapshots, NoneConcluded;
    }

    lemma StillAtRest(start: Table, received: map<string, State>, ends: map<string, State>)
      requires AllDisposed(start, Entries(), ends)
      requires AllSettled(ConfigsOf(start.tasks), received, ends) && AllAt(received, clock)
      requires AllLive(ConfigsOf(start.tasks), lives, ends)
      ensures NoneConcluded() && AllIdle(tasks, lives, ends, clock)
    {
      hide Quiescent, Unconcluded, HasPending, ConcludedRow, SettledFrom, Lives;
    }

    lemma ProgressDone(start: Table, received: map<string, State>, ends: map<string, State>)
      requires Progress(start, Entries(), {}, received, ends)
      ensures AllDisposed(start, Entries(), ends)
      ensures AllSettled(ConfigsOf(start.tasks), received, ends)
    {
      hide Disposed, Quiescent, Unconcluded, SettledFrom;
      forall t | t in start.tasks ensures Quiescent(start.tasks[t].cfg, ends[t]) {
        SettledIsQuiescent(start.tasks[t].cfg, received[t], ends[t]);
      }
    }

    /** One turn of the run loop, given the messages read from the inbox and the
        clock; what is left to be stored is returned. */
    method Tick(msgs: seq<Message>, now: real) returns (jobs: seq<PersistJob>, ghost ends: map<string, State>)
      requires Valid() && now >= clock
      modifies this, receiver, tasks.Values
      ensures Valid() && clock == now
      ensures receiver.calls == old(receiver.calls) + MessageIds(msgs)
      ensures Tracks(old(tasks), ends)
      ensures var replies := FirstDeliveries(receiver.cacheSize, old(receiver.calls), msgs);
        PassedAll(old(Configs()), old(Snapshots()), replies, now, jobs, ends)
      ensures AllDisposed(old(Entries()), Entries(), ends)
      ensures lives == LivesAfter(old(tasks), old(lives), FirstDeliveries(receiver.cacheSize, old(receiver.calls), msgs), now)
    {
      hide AllDisposed, HaveReceived, HaveObserved, Progress, AllRunnable, AllSeen, AllSettled, PassedAll, Tracks,
           NoneConcluded, Valid, IdempotentReceiver.Valid, Snapshots, FirstDeliveries, AllLive, Mine,
           LivesAfter, Coherent, WellFormed, Inv;
      ValidParts();
      ghost var cfgs, start, was := Configs(), Snapshots(), clock;
      ghost var seen := ObserveTasks(now);
      AllObserved(cfgs, start, seen, was, now);
      var replies := Receive(msgs);
      ghost var received;
      jobs, received := RouteReplies(replies, cfgs, seen, now);
      ends := SettleTasks(received, now);
      ProgressDone(old(Entries()), received, ends);
      AllPassed(cfgs, start, seen, replies, was, now, jobs, received, ends);
      LiveOn(old(Entries()), start, replies, now, jobs, received, ends);
    }

    /** The ticks of the run loop, one after another: a task still registered has
        lived through all of them. */
    method Serve(deliveries: seq<Delivery>)
      requires Valid() && Successive(clock, deliveries)
      modifies this, receiver, tasks.Values
      ensures Valid() && tasks.Keys <= old(tasks).Keys
      ensures forall t :: t in tasks ==> tasks[t] == old(tasks)[t]
      ensures forall t :: t in tasks ==> t in old(lives) && t in lives && Grew(old(lives)[t], lives[t], deliveries)
    {
      hide Valid, AllDisposed, PassedAll, Tracks;
      EachHasALife();
      for i := 0 to |deliveries|
        invariant Valid() && Successive(clock, deliveries[i..]) && tasks.Keys <= old(tasks).Keys
        invariant forall t :: t in tasks ==> tasks[t] == old(tasks)[t]
        invariant forall t :: t in tasks ==> t in old(lives) && t in lives && Grew(old(lives)[t], lives[t], deliveries[..i])
      {
        assert deliveries[i..][0] == deliveries[i] && deliveries[i..][1..] == deliveries[i + 1..];
        ghost var start, was, calls := Entries(), lives, receiver.calls;
        var jobs, ends := Tick(deliveries[i].msgs, deliveries[i].now);
        KeptTasks(start, Entries(), ends);
        GrewOn(old(lives), was, start.tasks, FirstDeliveries(receiver.cacheSize, calls, deliveries[i].msgs), deliveries, i);
      }
      assert deliveries[..|deliveries|] == deliveries;
    }

    lemma EachHasALife()
      requires Valid()
      ensures forall t :: t in tasks ==> t in lives
    {
      hide Idle, TaskState.Shows, TaskState.Snapshot, IdempotentReceiver.Valid;
    }

    lemma KeptTasks(start: Table, after: Table, ends: map<string, State>)
      requires AllDisposed(start, after, ends)
      ensures after.tasks.Keys <= start.tasks.Keys && forall t :: t in after.tasks ==> after.tasks[t] == start.tasks[t]
    {
      hide Disposed;
    }

    lemma GrewOn(first: map<string, Life>, was: map<string, Life>, all: map<string, TaskState>,
                 replies: seq<Message>, deliveries: seq<Delivery>, i: nat)
      requires i < |deliveries|
      requires forall t :: t in all ==> t in first && t in was && Grew(first[t], was[t], deliveries[..i])
      ensures var now := LivesAfter(all, was, replies, deliveries[i].now);
        forall t :: t in all ==> t in now && Grew(first[t], now[t], deliveries[..i + 1])
    {
    }

    /** The pass becomes part of the lives of the tasks. */
    ghost method LiveOn(start: Table, begun: map<string, State>, replies: seq<Message>, now: real, jobs: seq<PersistJob>,
                        received: map<string, State>, ends: map<string, State>)
      requires Tracks(start.tasks, ends) && AllDisposed(start, Entries(), ends)
      requires receiver.Valid() && inflight == |tasks| && AllAt(received, clock)
      requires AllSettled(ConfigsOf(start.tasks), received, ends) && AllLive(ConfigsOf(start.tasks), lives, begun)
      requires PassedAll(ConfigsOf(start.tasks), begun, replies, now, jobs, ends)
      modifies this`lives
      ensures Valid() && lives == LivesAfter(start.tasks, old(lives), replies, now)
    {
      hide Tracks, AllDisposed, IdempotentReceiver.Valid, AllAt, AllSettled, AllLive, PassedAll, LivesAfter, Valid;
      AllLiveOn(start.tasks, lives, begun, replies, now, jobs, ends);
      lives := LivesAfter(start.tasks, lives, replies, now);
      ValidAgain(start, received, ends);
    }

    // ----- Registering a task -----

    /** Relative to earlier tasks, one was registered and advanced to rest for the
        first time, with the given results reloaded. */
    ghost predicate Launched(task: Task, plan: Plan, loaded: map<Id, Content>, now: real,
                             before: map<string, TaskState>, end: State)
      reads this`tasks, this`lives, tasks.Values
    {
      && task.id in tasks && tasks == before[task.id := tasks[task.id]]
      && task.id in lives && lives[task.id] == Life(loaded, now, [])
      && tasks[task.id].cfg == Config(task, plan, timeouts) && tasks[task.id].Shows(end)
      && SettledFrom(Config(task, plan, timeouts), Initial(Config(task, plan, timeouts), loaded, now), end)
    }

    /** A new record, advanced for the first time. */
    method Launch(task: Task, plan: Plan, loaded: map<Id, Content>, now: real, ghost cfg: Config, ghost rank: map<Id, nat>)
      returns (state: TaskState, ghost end: State)
      requires cfg == Config(task, plan, timeouts) && WellFormed(plan, rank) && loaded.Keys < Ids(plan)
      ensures fresh(state) && state.cfg == cfg && state.task == task && state.Shows(end) && state.pending != {}
      ensures SettledFrom(cfg, Initial(cfg, loaded, now), end) && Idle(cfg, Life(loaded, now, []), end, now)
    {
      state := new TaskState(task, plan, loaded, now, cfg, rank);
      Advance(state, timeouts, now);
      end := state.Snapshot();
      InitialInv(cfg, loaded, now);
      AdvancedNow(cfg, Initial(cfg, loaded, now));
      ghost var acts := AdvancedSettles(cfg, Initial(cfg, loaded, now));
      RegisteringResolvesNothing(cfg, loaded, now, acts, end);
      var id :| id in Ids(plan) && id !in loaded;
      assert end.cells[id].pending;
      state.PendingShown();
    }

    /** The entry made for a new record. */
    method Enter(state: TaskState, ghost end: State, now: real, ghost life: Life)
      requires Valid() && now >= clock && state.task.id !in tasks && Unconcluded(RowOf(state.task.id))
      requires Serves(state.cfg) && state.Shows(end) && Idle(state.cfg, life, end, now)
      modifies this`tasks, this`inflight, this`clock, this`lives
      ensures Valid() && clock == now && tasks == old(tasks)[state.task.id := state]
      ensures lives == old(lives)[state.task.id := life]
    {
      hide TaskState.Shows, TaskState.Snapshot, Idle, Unconcluded, IdempotentReceiver.Valid, Snapshots, Tracks, AllIdle;
      ghost var ends := Snapshots()[state.task.id := end];
      OneMoreTracked(state, end, now, life);
      tasks, inflight, clock := tasks[state.task.id := state], inflight + 1, now;
      lives := lives[state.task.id := life];
      ValidFrom(ends);
    }

    lemma OneMoreTracked(state: TaskState, end: State, now: real, life: Life)
      requires Valid() && now >= clock && state.task.id !in tasks
      requires Serves(state.cfg) && state.Shows(end) && Idle(state.cfg, life, end, now)
      ensures Tracks(tasks[state.task.id := state], Snapshots()[state.task.id := end])
      ensures AllIdle(tasks[state.task.id := state], lives[state.task.id := life], Snapshots()[state.task.id := end], now)
    {
      hide TaskState.Shows, TaskState.Snapshot, AtRest, Lives, Unconcluded, IdempotentReceiver.Valid;
    }

    /** What the common part of `submit` and `_resume` comes to: a verdict (or an
        exception, without a trace) if every subtask has a result, a dispatched
        task otherwise. */
    ghost predicate Begun(ok: bool, task: Task, plan: Plan, loaded: map<Id, Content>, now: real,
                          before: map<string, TaskState>, row: Row, end: State)
      reads this`tasks, this`lives, this`store, tasks.Values
    {
      if loaded.Keys == Ids(plan) then
        && tasks == before
        && (ok <==> PayloadAfter(schemas, plan.subtasks, Reloaded(loaded)).Some?)
        && (if ok then ConcludedRow(RowOf(task.id), schemas, plan, Reloaded(loaded)) else RowOf(task.id) == row)
      else
        ok && RowOf(task.id) == row && Launched(task, plan, loaded, now, before, end)
    }

    method Begin(task: Task, plan: Plan, loaded: map<Id, Content>, now: real) returns (ok: bool, ghost end: State)
      requires Valid() && now >= clock && task.id !in tasks && Unconcluded(RowOf(task.id))
      requires plan == BuildPlan(task) && loaded.Keys <= Ids(plan)
      modifies this
      ensures Valid() && clock == now
      ensures forall t :: t != task.id ==> RowOf(t) == old(RowOf(t))
      ensures Begun(ok, task, plan, loaded, now, old(tasks), old(RowOf(task.id)), end)
      ensures lives == old(lives) || lives == old(lives)[task.id := Life(loaded, now, [])]
    {
      hide Valid, Unconcluded, ConcludedRow, SettledFrom, TaskState.Shows, WellFormed, Initial;
      ghost var cfg := Config(task, plan, timeouts);
      BuildPlanWellFormed(task);
      if loaded.Keys != Ids(plan) {
        end := Dispatched(task, plan, loaded, now, cfg, PlanRank(task));
        return true, end;
      }
      ok := ConcludeAtOnce(task, plan, loaded, now, cfg, PlanRank(task));
      end := Initial(cfg, loaded, now);
    }

    /** `_finalize` for a task with nothing to dispatch. Its exception, which the
        caller sees, leaves no trace. */
    method ConcludeAtOnce(task: Task, plan: Plan, loaded: map<Id, Content>, now: real, ghost cfg: Config, ghost rank: map<Id, nat>)
      returns (ok: bool)
      requires Valid() && now >= clock && task.id !in tasks && Unconcluded(RowOf(task.id))
      requires cfg == Config(task, plan, timeouts) && WellFormed(plan, rank) && loaded.Keys == Ids(plan)
      modifies this`store, this`clock
      ensures Valid() && clock == now
      ensures ok <==> PayloadAfter(schemas, plan.subtasks, Reloaded(loaded)).Some?
      ensures if ok then ConcludedRow(RowOf(task.id), schemas, plan, Reloaded(loaded)) else store == old(store)
      ensures forall t :: t != task.id ==> RowOf(t) == old(RowOf(t))
    {
      hide Valid, ConcludedRow, WellFormed, Initial, TaskState.Valid, TaskState.Snapshot, Reloaded;
      var state := new TaskState(task, plan, loaded, now, cfg, rank);
      ShownInitially(state, loaded, now);
      clock := now;
      ok := Finalize(state, now);
      StillValid();
    }

    /** Writes to the store about other tasks do not disturb the registered ones. */
    twostate lemma StillValid()
      requires old(Valid()) && unchanged(this`tasks, this`inflight, this`lives, receiver) && clock >= old(clock)
      requires forall t :: t in tasks ==> unchanged(tasks[t])
      requires forall t :: t in tasks ==> RowOf(t) == old(RowOf(t))
      ensures Valid()
    {
      hide TaskState.Shows, TaskState.Snapshot, AtRest, Lives, Unconcluded, IdempotentReceiver.Valid, Serves;
      assert Snapshots() == old(Snapshots());
    }

    lemma ShownInitially(state: TaskState, loaded: map<Id, Content>, now: real)
      requires state.Valid() && state.Snapshot() == Initial(state.cfg, loaded, now) && loaded.Keys <= Ids(state.plan)
      ensures state.results == Reloaded(loaded)
    {
      state.ResultsMatch();
    }

    method Dispatched(task: Task, plan: Plan, loaded: map<Id, Content>, now: real, ghost cfg: Config, ghost rank: map<Id, nat>)
      returns (ghost end: State)
      requires Valid() && now >= clock && task.id !in tasks && Unconcluded(RowOf(task.id))
      requires cfg == Config(task, plan, timeouts) && plan == BuildPlan(task) && WellFormed(plan, rank)
      requires loaded.Keys < Ids(plan)
      modifies this`tasks, this`inflight, this`clock, this`lives, this`store
      ensures Valid() && clock == now && store == old(store)
      ensures Launched(task, plan, loaded, now, old(tasks), end)
      ensures lives == old(lives)[task.id := Life(loaded, now, [])]
    {
      hide Valid, Unconcluded, SettledFrom, Idle, TaskState.Shows, WellFormed, Initial;
      var state;
      state, end := Launch(task, plan, loaded, now, cfg, rank);
      Enter(state, end, now, Life(loaded, now, []));
      var ok := MaybeFinalize(task.id, state, now);
    }

    /** The status write that precedes registration. */
    method MarkRunning(taskId: string)
      requires Valid() && taskId !in tasks && Unconcluded(RowOf(taskId))
      modifies this`store
      ensures Valid() && Unconcluded(RowOf(taskId))
      ensures store == old(store)[taskId := Row(old(RowOf(taskId)).statuses + [RUNNING], old(RowOf(taskId)).artifact)]
    {
      hide Valid;
      TerminalsAppend(RowOf(taskId).statuses, RUNNING);
      SetStatus(taskId, RUNNING);
      StillValid();
    }

    /** `submit`. Only the empty plan is finalized at once, and never with an
        exception. */
    method Submit(task: Task, now: real) returns (ghost end: State)
      requires Valid() && now >= clock && task.id !in tasks && Unconcluded(RowOf(task.id))
      modifies this
      ensures Valid() && clock == now
      ensures forall t :: t != task.id ==> RowOf(t) == old(RowOf(t))
      ensures BuildPlan(task).subtasks == [] ==>
        tasks == old(tasks) && ConcludedRow(RowOf(task.id), schemas, BuildPlan(task), map[])
      ensures BuildPlan(task).subtasks != [] ==> Launched(task, BuildPlan(task), map[], now, old(tasks), end)
      ensures BuildPlan(task).subtasks != [] ==>
        RowOf(task.id) == Row(old(RowOf(task.id)).statuses + [RUNNING], old(RowOf(task.id)).artifact)
    {
      hide Valid, Unconcluded, ConcludedRow, Launched, BuildPlan;
      var plan := BuildPlan(task);
      MarkRunning(task.id);
      var ok;
      ok, end := Begin(task, plan, map[], now);
      assert Reloaded(map[]) == map[];
    }

    /** `_resume`. Reloaded results of other subtasks are ignored. False stands
        for an exception out of artifact assembly. */
    method Resume(task: Task, stored: map<Id, Content>, now: real) returns (ok: bool, ghost end: State)
      requires Valid() && now >= clock && task.id !in tasks && Unconcluded(RowOf(task.id))
      modifies this
      ensures Valid() && clock == now
      ensures forall t :: t != task.id ==> RowOf(t) == old(RowOf(t))
      ensures Begun(ok, task, BuildPlan(task), InPlan(task, stored), now, old(tasks), old(RowOf(task.id)), end)
      ensures lives == old(lives) || lives == old(lives)[task.id := Life(InPlan(task, stored), now, [])]
    {
      ok, end := Begin(task, BuildPlan(task), InPlan(task, stored), now);
    }

    // ----- Recovery of all tasks in flight -----

    /** Finalizing the fully reloaded task would raise. */
    predicate Malformed(item: Recovered) {
      item.Complete() && PayloadAfter(schemas, BuildPlan(item.task).subtasks, Reloaded(item.Loaded())).None?
    }

    /** The task is dispatched, or concluded if everything was reloaded. */
    ghost predicate ResumedAs(item: Recovered, now: real)
      reads this`tasks, this`lives, this`store
    {
      var id := item.task.id;
      if item.Complete() then
        id !in tasks && ConcludedRow(RowOf(id), schemas, BuildPlan(item.task), Reloaded(item.Loaded()))
      else
        id in tasks && tasks[id].cfg == Config(item.task, BuildPlan(item.task), timeouts) &&
        id in lives && lives[id] == Life(item.Loaded(), now, [])
    }

    /** No task of the list is registered or concluded. */
    ghost predicate Untouched(items: seq<Recovered>)
      reads this`tasks, this`store
    {
      forall i :: 0 <= i < |items| ==> items[i].task.id !in tasks && Unconcluded(RowOf(items[i].task.id))
    }

    /** The loop of `_recover`. The tasks before the first malformed one are
        resumed; its exception ends the loop, and the tasks from it on are left as
        they were. */
    method Recover(items: seq<Recovered>, now: real) returns (resumed: nat)
      requires Valid() && now >= clock && Untouched(items) && DistinctTasks(items)
      modifies this
      ensures Valid() && resumed <= |items|
      ensures forall i :: 0 <= i < resumed ==> !Malformed(items[i]) && ResumedAs(items[i], now)
      ensures resumed < |items| ==> Malformed(items[resumed])
      ensures Untouched(items[resumed..])
    {
      hide Valid, Unconcluded, ConcludedRow, Malformed;
      for i := 0 to |items|
        invariant Valid() && now >= clock && Untouched(items[i..])
        invariant forall k :: 0 <= k < i ==> !Malformed(items[k]) && ResumedAs(items[k], now)
      {
        var ok := ResumeItem(items, i, now);
        if !ok {
          return i;
        }
      }
      resumed := |items|;
    }

    /** One turn of the loop, seen from the whole list. */
    method ResumeItem(items: seq<Recovered>, i: nat, now: real) returns (ok: bool)
      requires i < |items| && DistinctTasks(items)
      requires Valid() && now >= clock && Untouched(items[i..])
      requires forall k :: 0 <= k < i ==> ResumedAs(items[k], now)
      modifies this
      ensures Valid() && clock == now && (ok <==> !Malformed(items[i]))
      ensures forall k :: 0 <= k < i ==> ResumedAs(items[k], now)
      ensures if ok then ResumedAs(items[i], now) && Untouched(items[i + 1..]) else Untouched(items[i..])
    {
      hide Valid, Unconcluded, ConcludedRow, TaskState.Shows, SettledFrom, BuildPlan;
      assert items[i..][0] == items[i];
      ghost var end;
      ok, end := Resume(items[i].task, items[i].results, now);
      OthersAsBefore(Turn(items, i, now));
    }

    /** Other tasks of the list are as they were. */
    twostate lemma OthersAsBefore(turn: Turn)
      requires turn.i < |turn.items| && DistinctTasks(turn.items) && old(Untouched(turn.items[turn.i..]))
      requires forall k :: 0 <= k < turn.i ==> old(ResumedAs(turn.items[k], turn.now))
      requires var id := turn.items[turn.i].task.id;
        && (forall t :: t != id ==> RowOf(t) == old(RowOf(t)))
        && (tasks == old(tasks) || (id in tasks && tasks == old(tasks)[id := tasks[id]]))
        && (lives == old(lives) || (id in lives && lives == old(lives)[id := lives[id]]))
      ensures forall k :: 0 <= k < turn.i ==> ResumedAs(turn.items[k], turn.now)
      ensures Untouched(turn.items[turn.i + 1..])
      ensures turn.items[turn.i].task.id !in tasks && RowOf(turn.items[turn.i].task.id) == old(RowOf(turn.items[turn.i].task.id)) ==>
        Untouched(turn.items[turn.i..])
    {
      hide Unconcluded, ConcludedRow, BuildPlan;
      var items, i := turn.items, turn.i;
      forall k | 0 <= k < i ensures ResumedAs(items[k], turn.now) {
        assert old(ResumedAs(items[k], turn.now)) && items[k].task.id != items[i].task.id;
      }
      var rest, later := items[i..], items[i + 1..];
      forall k | 0 <= k < |later| ensures later[k].task.id !in tasks && Unconcluded(RowOf(later[k].task.id)) {
        assert later[k] == rest[k + 1] && items[i + 1 + k].task.id != items[i].task.id;
      }
      forall k | 0 <= k < |rest| && items[i].task.id !in tasks && RowOf(items[i].task.id) == old(RowOf(items[i].task.id))
        ensures rest[k].task.id !in tasks && Unconcluded(RowOf(rest[k].task.id))
      {
        assert k > 0 ==> rest[k] == later[k - 1];
        assert rest[0] == items[i];
      }
    }
  }

  /** A task to resume with the results reloaded for it. */
  datatype Recovered = Recovered(task: Task, results: map<Id, Content>) {
    function Loaded(): map<Id, Content> {
      InPlan(task, results)
    }

    predicate Complete() {
      Loaded().Keys == Ids(BuildPlan(task))
    }
  }

  /** The reloaded results of subtasks of the plan. */
  function InPlan(task: Task, stored: map<Id, Content>): map<Id, Content> {
    map id | id in stored && id in Ids(BuildPlan(task)) :: stored[id]
  }

  predicate DistinctTasks(items: seq<Recovered>) {
    forall i, j :: 0 <= i < j < |items| ==> items[i].task.id != items[j].task.id
  }

  /** The messages one tick reads and its clock reading. */
  datatype Delivery = Delivery(msgs: seq<Message>, now: real)

  predicate Successive(now: real, deliveries: seq<Delivery>)
    decreases |deliveries|
  {
    deliveries == [] || (deliveries[0].now >= now && Successive(deliveries[0].now, deliveries[1..]))
  }

  /** A life has gone on for the given ticks. */
  predicate Grew(was: Life, now: Life, deliveries: seq<Delivery>) {
    && now.loaded == was.loaded && now.start == was.start
    && |now.inputs| == |was.inputs| + |deliveries| && now.inputs[..|was.inputs|] == was.inputs
    && forall i :: 0 <= i < |deliveries| ==> now.inputs[|was.inputs| + i].now == deliveries[i].now
  }

  /** A turn of the loop over the recovered tasks. */
  datatype Turn = Turn(items: seq<Recovered>, i: nat, now: real)

  /** The results a task starts with. */
  function Reloaded(loaded: map<Id, Content>): Results {
    map id | id in loaded :: Some(loaded[id])
  }

  /** Every task made a pass and left its jobs to be stored. */
  ghost predicate PassedAll(cfgs: map<string, Config>, start: map<string, State>, replies: seq<Message>, now: real,
                            jobs: seq<PersistJob>, ends: map<string, State>) {
    && cfgs.Keys == start.Keys == ends.Keys
    && (forall job :: job in jobs ==> job.taskId in start)
    && (forall t :: t in start ==> Follows(cfgs[t], start[t], Input(Mine(replies, t), now), ends[t]))
    && (forall t :: t in start ==> PassJobs(cfgs[t], start[t], Mine(replies, t), now, JobsFor(jobs, t)))
  }

  /** The jobs that a pass leaves to be stored. */
  ghost predicate PassJobs(cfg: Config, s: State, msgs: seq<Message>, now: real, jobs: seq<PersistJob>) {
    Inv(cfg, Observed(s, now)) && jobs == JobsOf(cfg, Observed(s, now), msgs)
  }

  ghost predicate Runnable(cfg: Config, taskId: string, s: State) {
    cfg.task.id == taskId && Coherent(cfg.plan) && Inv(cfg, s) && Quiescent(cfg, s)
  }

  ghost predicate AllRunnable(cfgs: map<string, Config>, start: map<string, State>, clock: real) {
    cfgs.Keys == start.Keys && forall t :: t in start ==> Runnable(cfgs[t], t, start[t]) && start[t].now <= clock
  }

  /** All tasks are at the given clock reading. */
  ghost predicate AllSeen(cfgs: map<string, Config>, seen: map<string, State>, now: real) {
    && cfgs.Keys == seen.Keys
    && forall t :: t in seen ==> cfgs[t].task.id == t && Inv(cfgs[t], seen[t]) && seen[t].now == now
  }

  ghost predicate AllSettled(cfgs: map<string, Config>, received: map<string, State>, ends: map<string, State>) {
    && cfgs.Keys == received.Keys == ends.Keys
    && (forall t :: t in ends ==> SettledFrom(cfgs[t], received[t], ends[t]))
    && (forall t :: t in ends ==> Quiescent(cfgs[t], ends[t]) && ends[t].now == received[t].now)
  }

  lemma AllObserved(cfgs: map<string, Config>, start: map<string, State>, seen: map<string, State>, clock: real, now: real)
    requires AllRunnable(cfgs, start, clock) && clock <= now && HaveObserved(start, seen, {}, now)
    ensures AllSeen(cfgs, seen, now)
  {
    forall t | t in start ensures Inv(cfgs[t], seen[t]) {
      StepInv(cfgs[t], start[t], Sample(now));
    }
  }

  lemma AllPassed(cfgs: map<string, Config>, start: map<string, State>, seen: map<string, State>,
                  replies: seq<Message>, clock: real, now: real, jobs: seq<PersistJob>,
                  received: map<string, State>, ends: map<string, State>)
    requires AllRunnable(cfgs, start, clock) && clock <= now && HaveObserved(start, seen, {}, now)
    requires HaveReceived(cfgs, seen, replies, jobs, received) && AllSettled(cfgs, received, ends)
    ensures PassedAll(cfgs, start, replies, now, jobs, ends)
  {
    hide Inv, Quiescent;
    forall t | t in start
      ensures Follows(cfgs[t], start[t], Input(Mine(replies, t), now), ends[t])
      ensures PassJobs(cfgs[t], start[t], Mine(replies, t), now, JobsFor(jobs, t))
    {
      assert Received(cfgs[t], t, seen[t], replies, jobs, received[t]);
    }
  }

  /** The jobs of one task, in order. */
  function JobsFor(jobs: seq<PersistJob>, taskId: string): seq<PersistJob> {
    if jobs == [] then []
    else
      var n := |jobs| - 1;
      var before := JobsFor(jobs[..n], taskId);
      if jobs[n].taskId == taskId then before + [jobs[n]] else before
  }

  lemma SettledIsQuiescent(cfg: Config, s: State, end: State)
    requires SettledFrom(cfg, s, end)
    ensures Quiescent(cfg, end)
  {
    var acts := AdvancedSettles(cfg, s);
  }

  /** The state `_advance` makes of s. */
  ghost predicate SettledFrom(cfg: Config, s: State, end: State) {
    Coherent(cfg.plan) && Inv(cfg, s) && end == Advanced(cfg, s)
  }

  /** Every task has the life recorded for it behind it. */
  ghost predicate AllLive(cfgs: map<string, Config>, lives: map<string, Life>, states: map<string, State>) {
    forall t :: t in cfgs ==> t in lives && t in states && Lives(cfgs[t], lives[t], states[t])
  }

  lemma AllLiveOn(tasks: map<string, TaskState>, lives: map<string, Life>, start: map<string, State>,
                  replies: seq<Message>, now: real, jobs: seq<PersistJob>, ends: map<string, State>)
    requires AllLive(ConfigsOf(tasks), lives, start) && PassedAll(ConfigsOf(tasks), start, replies, now, jobs, ends)
    ensures AllLive(ConfigsOf(tasks), LivesAfter(tasks, lives, replies, now), ends)
  {
    hide Lives, Follows;
    forall t | t in tasks ensures Lives(tasks[t].cfg, Later(lives[t], Input(Mine(replies, t), now)), ends[t]) {
      LivesOn(tasks[t].cfg, lives[t], start[t], Input(Mine(replies, t), now), ends[t]);
    }
  }
}
