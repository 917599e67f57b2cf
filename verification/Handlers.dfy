/** The handlers of the run loop that work on one task's record, statement by
    statement as in src/agents/coordinator.py, each proved to perform actions of
    the protocol. */
module Handlers {
  import opened Basics
  import opened Plans
  import opened Payloads
  import opened Retry
  import opened Dispatch
  import opened Invariants
  import opened Budget
  import opened Confluence
  import opened Rounds
  import opened Ticks
  import opened TaskStates

  /** At most one advance action, named by `act`, took s to t. */
  ghost predicate Stepped(cfg: Config, s: State, act: Option<Action>, t: State) {
    match act
    case None => t == s
    case Some(a) => IsAdvance(a) && Enabled(cfg, s, a) && t == Apply(cfg, s, a)
  }

  /** `_fail_subtask`. */
  method FailSubtask(state: TaskState, id: Id, reason: string, now: real)
    modifies state
    ensures state.FieldsFailed(id, reason, now)
  {
    state.results := state.results[id := None];
    state.failReason := state.failReason[id := reason];
    state.resolvedAt := state.resolvedAt[id := now];
    Retire(state, id);
  }

  /** The part of `_fail_subtask` that ends the work on a subtask. */
  method Retire(state: TaskState, id: Id)
    modifies state`deadlines, state`retryAt, state`published, state`pending
    ensures state.deadlines == old(state.deadlines) - {id} && state.retryAt == old(state.retryAt) - {id}
    ensures state.published == old(state.published) + {id} && state.pending == old(state.pending) - {id}
  {
    state.deadlines := state.deadlines - {id};
    state.retryAt := state.retryAt - {id};
    state.published := state.published + {id};
    state.pending := state.pending - {id};
  }

  /** `_schedule_retry_or_fail`. */
  method ScheduleRetryOrFail(state: TaskState, id: Id, reason: string, now: real)
    modifies state
    ensures state.FieldsRetriedOrFailed(id, reason, now)
  {
    var count := if id in state.retryCounts then state.retryCounts[id] else 0;
    if count >= RETRY_MAX {
      FailSubtask(state, id, reason, now);
      return;
    }
    state.retryCounts := state.retryCounts[id := count + 1];
    state.retryAt := state.retryAt[id := now + BACKOFF_SECONDS[state.retryCounts[id] - 1]];
    state.failReason := state.failReason[id := reason];
  }

  /** `_publish`. */
  method Publish(state: TaskState, st: Subtask, timeouts: map<AgentName, real>, now: real)
    requires state.Shape() && state.clock == now
    modifies state
    ensures state.FieldsPublished(RequestFor(state.cfg, old(state.Snapshot()), st),
                                  now + TimeoutFor(timeouts, st.agent), now)
    ensures state.HandedOver(st, now)
    ensures st.id in state.deadlines && Lasts(timeouts, st.agent, state.deadlines[st.id] - now)
  {
    hide Carries;
    state.ResultsMatch();
    ghost var expected := RequestFor(state.cfg, state.Snapshot(), st);
    var payload := BuildPayload(st, state.task, state.results);
    var conversationId := "conv-" + state.task.id + "-" + OperationValue(st.operation);
    var request := Request(st.id, st.agent, conversationId, payload, now);
    assert request == expected;
    EnterRequest(state, request, now + TimeoutFor(timeouts, st.agent), now);
  }

  /** The part of `_publish` that follows the hand-over to the bus. */
  method EnterRequest(state: TaskState, request: Request, deadline: real, now: real)
    modifies state
    ensures state.FieldsPublished(request, deadline, now)
  {
    var id := request.subtaskId;
    state.sent := state.sent[id := (if id in state.sent then state.sent[id] else []) + [request]];
    state.published := state.published + {id};
    state.messagesExchanged := state.messagesExchanged + 1;
    StartAttempt(state, id, deadline, now);
  }

  /** The part of `_publish` that starts the attempt's timer. */
  method StartAttempt(state: TaskState, id: Id, deadline: real, now: real)
    modifies state`deadlines, state`firstAttemptAt
    ensures state.deadlines == old(state.deadlines)[id := deadline]
    ensures state.firstAttemptAt ==
      if id in old(state.firstAttemptAt) then old(state.firstAttemptAt) else old(state.firstAttemptAt)[id := now]
  {
    state.deadlines := state.deadlines[id := deadline];
    if id !in state.firstAttemptAt {
      state.firstAttemptAt := state.firstAttemptAt[id := now];
    }
  }

  // ----- The loops of `_advance` -----

  /** The fields show the effect of an enabled advance action on s. */
  lemma ActionTaken(state: TaskState, s: State, a: Action)
    requires Inv(state.cfg, s) && IsAdvance(a) && Enabled(state.cfg, s, a)
    requires state.Shape() && state.clock == s.now && state.startedAt == s.startedAt
    requires state.CellOf(a.id) == NewCell(state.cfg, s, a)
    requires forall id :: id in Ids(state.plan) && id != a.id ==> state.CellOf(id) == s.cells[id]
    requires state.messagesExchanged == s.messagesExchanged + MessagesOf(a)
    ensures state.Valid() && Stepped(state.cfg, s, Some(a), state.Snapshot())
  {
    state.ShowsEffect(s, a);
    StepInv(state.cfg, s, a);
  }

  /** The dependencies that have a result. */
  function Successes(results: Results, deps: seq<Id>): (r: seq<Id>)
    ensures |r| <= |deps|
    ensures forall d :: d in r <==> d in deps && ResultOf(results, d).Some?
    ensures |r| == |deps| <==> forall d :: d in deps ==> ResultOf(results, d).Some?
  {
    if deps == [] then []
    else
      assert deps == [deps[0]] + deps[1..];
      var rest := Successes(results, deps[1..]);
      if ResultOf(results, deps[0]).Some? then [deps[0]] + rest else rest
  }

  /** `_fail_subtask` on a subtask whose upstreams rule it out. */
  method SkipReady(state: TaskState, st: Subtask, reason: string, now: real)
    requires state.Valid() && state.clock == now && st in state.plan.subtasks
    requires Ready(state.Snapshot(), st) && !JoinMet(state.Snapshot(), st) && reason == SkipReason(state.Snapshot(), st)
    modifies state
    ensures state.Valid() && state.clock == now
    ensures state.Snapshot() == Visited(state.cfg, old(state.Snapshot()), st)
  {
    ghost var s := state.Snapshot();
    state.SnapshotCells();
    FailSubtask(state, st.id, reason, now);
    state.FailedCell(Occasion(st.id, reason, now));
    ActionTaken(state, s, Skip(st.id));
  }

  /** `_publish` of a ready subtask. */
  method SendReady(state: TaskState, st: Subtask, timeouts: map<AgentName, real>, now: real)
    requires state.Valid() && state.clock == now && st in state.plan.subtasks && state.cfg.timeouts == timeouts
    requires Ready(state.Snapshot(), st) && JoinMet(state.Snapshot(), st)
    modifies state
    ensures state.Valid() && state.clock == now
    ensures state.Snapshot() == Visited(state.cfg, old(state.Snapshot()), st)
  {
    ghost var s := state.Snapshot();
    state.SnapshotCells();
    PublishCell(state, st, timeouts, now);
    ActionTaken(state, s, Send(st.id));
  }

  /** One turn of the loop over the plan: a ready subtask is sent, or fails with
      its upstreams. */
  method AdvanceSubtask(state: TaskState, st: Subtask, timeouts: map<AgentName, real>, now: real) returns (changed: bool)
    requires state.Valid() && state.clock == now && state.cfg.timeouts == timeouts
    requires st in state.plan.subtasks
    modifies state
    ensures state.Valid() && state.clock == now
    ensures state.Snapshot() == Visited(state.cfg, old(state.Snapshot()), st)
    ensures changed <==> Ready(old(state.Snapshot()), st)
    ensures !changed ==> state.Snapshot() == old(state.Snapshot())
  {
    hide TaskState.Valid, TaskState.Snapshot, Visited, Ready, JoinMet, SkipReason;
    if st.id in state.published || st.id !in state.pending {
      NotReady(state, st);
      return false;
    }
    if !forall d :: d in st.dependsOn ==> d in state.results {
      NotReady(state, st);
      return false;
    }
    AllResolved(state, st);
    var succeeded := Successes(state.results, st.dependsOn);
    JoinBySuccesses(state, st);
    if st.dependsOn != [] && succeeded == [] {
      SkipReady(state, st, "skipped: all upstream failed", now);
    } else if st.join == All && |succeeded| < |st.dependsOn| {
      SkipReady(state, st, "skipped: upstream failed", now);
    } else {
      SendReady(state, st, timeouts, now);
    }
    changed := true;
  }

  lemma NotReady(state: TaskState, st: Subtask)
    requires state.Valid() && st in state.plan.subtasks
    requires st.id in state.published || st.id !in state.pending || exists d :: d in st.dependsOn && d !in state.results
    ensures !Ready(state.Snapshot(), st) && Visited(state.cfg, state.Snapshot(), st) == state.Snapshot()
  {
    if d :| d in st.dependsOn && d !in state.results {
      assert !Resolved(state.Snapshot(), d);
    }
  }

  lemma AllResolved(state: TaskState, st: Subtask)
    requires state.Valid() && st in state.plan.subtasks
    requires st.id in state.pending && st.id !in state.published
    requires forall d :: d in st.dependsOn ==> d in state.results
    ensures Ready(state.Snapshot(), st)
  {
    forall d | d in st.dependsOn ensures Resolved(state.Snapshot(), d) {
      assert state.Snapshot().cells[d] == state.CellOf(d);
    }
  }

  /** The two tests of the loop decide the join condition and the reason. */
  lemma JoinBySuccesses(state: TaskState, st: Subtask)
    requires state.Valid() && Ready(state.Snapshot(), st)
    ensures var s, got := state.Snapshot(), Successes(state.results, st.dependsOn);
      && (JoinMet(s, st) <==> !(st.dependsOn != [] && got == []) && !(st.join == All && |got| < |st.dependsOn|))
      && (SkipReason(s, st) == if got == [] then "skipped: all upstream failed" else "skipped: upstream failed")
  {
    var s, got := state.Snapshot(), Successes(state.results, st.dependsOn);
    forall d | d in st.dependsOn ensures Succeeded(s, d) <==> d in got {
      assert Resolved(s, d) && s.cells[d] == state.CellOf(d);
    }
    if got != [] {
      assert got[0] in got;
    }
  }

  /** `deadlines.pop`. */
  method DropDeadline(state: TaskState, id: Id)
    requires state.Shape()
    modifies state
    ensures state.Shape() && state.CellBecame(id, old(state.CellOf(id)).(deadline := None), 0)
    ensures state.deadlines.Keys == old(state.deadlines.Keys) - {id}
  {
    state.deadlines := state.deadlines - {id};
    state.DroppedDeadline(id);
  }

  /** `del retry_at[...]`. */
  method DropRetry(state: TaskState, id: Id)
    requires state.Shape()
    modifies state
    ensures state.Shape() && state.CellBecame(id, old(state.CellOf(id)).(retryAt := None), 0)
    ensures RequestsAlike(state.cfg, old(state.Snapshot()), state.Snapshot())
    ensures state.retryAt == old(state.retryAt) - {id}
  {
    state.ResultsMatch();
    state.retryAt := state.retryAt - {id};
    state.DroppedRetry(id);
    state.ResultsMatch();
  }

  /** The same requests would be built in both states. */
  ghost predicate RequestsAlike(cfg: Config, s: State, t: State) {
    ResultsOf(s) == ResultsOf(t) && s.now == t.now
  }

  method RetryOrFail(state: TaskState, id: Id, reason: string, now: real)
    requires state.Shape() && id in Ids(state.plan)
    modifies state
    ensures state.Shape()
    ensures state.CellBecame(id, RetriedOrFailed(old(state.CellOf(id)), now, reason), 0)
    ensures state.FieldsRetriedOrFailed(id, reason, now)
    ensures old(state.deadlines.Keys) - {id} <= state.deadlines.Keys
  {
    ScheduleRetryOrFail(state, id, reason, now);
    state.RetriedOrFailedCell(Occasion(id, reason, now));
  }

  method PublishCell(state: TaskState, st: Subtask, timeouts: map<AgentName, real>, now: real)
    requires state.Shape() && state.clock == now && st.id in Ids(state.plan)
    modifies state
    ensures state.Shape()
    ensures state.CellBecame(st.id,
              Published(old(state.CellOf(st.id)), now, TimeoutFor(timeouts, st.agent),
                        RequestFor(state.cfg, old(state.Snapshot()), st)), 1)
    ensures state.retryAt == old(state.retryAt)
  {
    ghost var request := RequestFor(state.cfg, state.Snapshot(), st);
    Publish(state, st, timeouts, now);
    state.PublishedCell(Sending(request, TimeoutFor(timeouts, st.agent), now));
  }

  /** One turn of `_expire_timeouts`. */
  method ExpireSubtask(state: TaskState, id: Id, now: real)
    requires state.Valid() && state.clock == now && id in state.deadlines && now > state.deadlines[id]
    modifies state
    ensures state.Valid() && Stepped(state.cfg, old(state.Snapshot()), Some(Expire(id)), state.Snapshot())
    ensures old(state.deadlines.Keys) - {id} <= state.deadlines.Keys && state.clock == now
  {
    ghost var s := state.Snapshot();
    state.SnapshotCells();
    DropDeadline(state, id);
    RetryOrFail(state, id, "timeout", now);
    ActionTaken(state, s, Expire(id));
  }

  /** One turn of `_republish_due`. */
  method RepublishSubtask(state: TaskState, id: Id, timeouts: map<AgentName, real>, now: real)
    requires state.Valid() && state.clock == now && id in state.retryAt && now >= state.retryAt[id]
    requires state.cfg.timeouts == timeouts
    modifies state
    ensures state.Valid() && Stepped(state.cfg, old(state.Snapshot()), Some(Republish(id)), state.Snapshot())
    ensures state.retryAt == old(state.retryAt) - {id} && state.clock == now
  {
    ghost var s := state.Snapshot();
    state.SnapshotCells();
    DropRetry(state, id);
    PublishCell(state, Get(state.plan, id), timeouts, now);
    ActionTaken(state, s, Republish(id));
  }

  /** Where the expiry loop stands: some deadlines are still to be looked at, the
      passed ones among the others have been handled. */
  ghost predicate Expiring(state: TaskState, s: State, todo: set<Id>, done: set<Id>)
    reads state
  {
    && state.Valid() && Inv(state.cfg, s) && state.clock == s.now && state.Snapshot() == ExpireIn(s, done)
    && todo <= state.deadlines.Keys && todo !! done && done <= ExpiredIds(s) <= done + todo
  }

  lemma ExpiringStarts(state: TaskState)
    requires state.Valid()
    ensures Expiring(state, state.Snapshot(), state.deadlines.Keys, {})
  {
    assert ExpireIn(state.Snapshot(), {}).cells == state.Snapshot().cells;
    state.SnapshotCells();
  }

  /** A deadline the loop has yet to look at is as it was. */
  lemma DeadlineLeft(state: TaskState, s: State, todo: set<Id>, done: set<Id>, id: Id)
    requires Expiring(state, s, todo, done) && id in todo
    ensures id in state.deadlines && (id in ExpiredIds(s) <==> state.clock > state.deadlines[id])
  {
    assert state.CellOf(id) == state.Snapshot().cells[id] == s.cells[id];
  }

  lemma ExpiringEnds(state: TaskState, s: State, done: set<Id>)
    requires Expiring(state, s, {}, done)
    ensures state.Valid() && state.clock == s.now && state.Snapshot() == AllExpired(s) && done == ExpiredIds(s)
  {
  }

  lemma ExpiringGoesOn(state: TaskState, s: State, todo: set<Id>, done: set<Id>, id: Id)
    requires Expiring(state, s, todo, done) && id in todo && id !in ExpiredIds(s)
    ensures Expiring(state, s, todo - {id}, done)
  {
  }

  /** A turn of the expiry loop. */
  method ExpireTurn(state: TaskState, id: Id, now: real, ghost s: State, ghost todo: set<Id>, ghost done: set<Id>)
    requires Expiring(state, s, todo, done) && id in todo && id in ExpiredIds(s) && state.clock == now
    modifies state
    ensures Expiring(state, s, todo - {id}, done + {id}) && state.clock == now
  {
    hide TaskState.Snapshot, TaskState.Valid, ExpireIn, Inv, ExpiredIds, Enabled, Apply;
    DeadlineLeft(state, s, todo, done, id);
    ExpireOneMore(state.cfg, s, done, id);
    ExpireSubtask(state, id, now);
  }

  /** `_expire_timeouts`. */
  method ExpireTimeouts(state: TaskState, now: real) returns (changed: bool)
    requires state.Valid() && state.clock == now
    modifies state
    ensures state.Valid() && state.clock == now
    ensures state.Snapshot() == AllExpired(old(state.Snapshot()))
    ensures changed <==> ExpiredIds(old(state.Snapshot())) != {}
    ensures forall id :: id in Ids(state.plan) ==> TimedOut(old(state.CellOf(id)), now, state.CellOf(id))
  {
    hide Expiring, TaskState.Valid, TaskState.Snapshot, TaskState.CellOf, TimedOut, ExpiredIds, AllExpired;
    changed := false;
    ghost var s, done := state.Snapshot(), {};
    state.SnapshotCells();
    var todo := state.deadlines.Keys;
    ExpiringStarts(state);
    while todo != {}
      invariant Expiring(state, s, todo, done) && state.clock == now
      invariant changed <==> done != {}
      decreases todo
    {
      var id :| id in todo;
      DeadlineLeft(state, s, todo, done, id);
      if now > state.deadlines[id] {
        ExpireTurn(state, id, now, s, todo, done);
        done := done + {id};
        changed := true;
      } else {
        ExpiringGoesOn(state, s, todo, done, id);
      }
      todo := todo - {id};
    }
    ExpiringEnds(state, s, done);
    forall id | id in Ids(state.plan) ensures TimedOut(old(state.CellOf(id)), now, state.CellOf(id)) {
      state.SnapshotCells();
      ExpiryByTheClock(s, id);
    }
  }

  /** The same for the loop over the retries. */
  ghost predicate Resending(state: TaskState, s: State, todo: set<Id>, done: set<Id>)
    reads state
  {
    && state.Valid() && Inv(state.cfg, s) && state.clock == s.now && state.Snapshot() == ResendIn(state.cfg, s, done)
    && todo <= state.retryAt.Keys && todo !! done && done <= DueIds(s) <= done + todo
  }

  lemma ResendingStarts(state: TaskState)
    requires state.Valid()
    ensures Resending(state, state.Snapshot(), state.retryAt.Keys, {})
  {
    assert ResendIn(state.cfg, state.Snapshot(), {}).cells == state.Snapshot().cells;
    state.SnapshotCells();
  }

  lemma RetryLeft(state: TaskState, s: State, todo: set<Id>, done: set<Id>, id: Id)
    requires Resending(state, s, todo, done) && id in todo
    ensures id in state.retryAt && (id in DueIds(s) <==> state.clock >= state.retryAt[id])
  {
    assert state.CellOf(id) == state.Snapshot().cells[id] == s.cells[id];
  }

  lemma ResendingEnds(state: TaskState, s: State, done: set<Id>)
    requires Resending(state, s, {}, done)
    ensures state.Valid() && state.clock == s.now && done == DueIds(s)
    ensures state.cfg.plan == state.plan && s.cells.Keys == Ids(state.plan)
    ensures state.Snapshot() == ResendIn(state.cfg, s, DueIds(s))
  {
  }

  lemma ResendingGoesOn(state: TaskState, s: State, todo: set<Id>, done: set<Id>, id: Id)
    requires Resending(state, s, todo, done) && id in todo && id !in DueIds(s)
    ensures Resending(state, s, todo - {id}, done)
  {
  }

  method RepublishTurn(state: TaskState, id: Id, timeouts: map<AgentName, real>, now: real,
                       ghost s: State, ghost todo: set<Id>, ghost done: set<Id>)
    requires Resending(state, s, todo, done) && id in todo && id in DueIds(s) && state.clock == now
    requires state.cfg.timeouts == timeouts
    modifies state
    ensures Resending(state, s, todo - {id}, done + {id}) && state.clock == now
  {
    hide TaskState.Snapshot, TaskState.Valid, ResendIn, Inv, DueIds, Enabled, Apply;
    RetryLeft(state, s, todo, done, id);
    ResendOneMore(state.cfg, s, done, id);
    RepublishSubtask(state, id, timeouts, now);
  }

  /** `_republish_due`. */
  method RepublishDue(state: TaskState, timeouts: map<AgentName, real>, now: real) returns (changed: bool)
    requires state.Valid() && state.clock == now && state.cfg.timeouts == timeouts
    modifies state
    ensures state.Valid() && state.clock == now
    ensures state.Snapshot() == ResendIn(state.cfg, old(state.Snapshot()), DueIds(old(state.Snapshot())))
    ensures changed <==> DueIds(old(state.Snapshot())) != {}
    ensures forall id :: id in Ids(state.plan) ==>
      SentAgain(timeouts, Get(state.plan, id).agent, old(state.CellOf(id)), now, state.CellOf(id))
  {
    hide TaskState.Valid, TaskState.Snapshot, TaskState.CellOf, SentAgain, Resending, DueIds, ResendIn;
    changed := false;
    ghost var s, done := state.Snapshot(), {};
    state.SnapshotCells();
    var todo := state.retryAt.Keys;
    ResendingStarts(state);
    while todo != {}
      invariant Resending(state, s, todo, done) && state.clock == now
      invariant changed <==> done != {}
      decreases todo
    {
      var id :| id in todo;
      RetryLeft(state, s, todo, done, id);
      if now >= state.retryAt[id] {
        RepublishTurn(state, id, timeouts, now, s, todo, done);
        done := done + {id};
        changed := true;
      } else {
        ResendingGoesOn(state, s, todo, done, id);
      }
      todo := todo - {id};
    }
    ResendingEnds(state, s, done);
    forall id | id in Ids(state.plan)
      ensures SentAgain(timeouts, Get(state.plan, id).agent, old(state.CellOf(id)), now, state.CellOf(id))
    {
      state.SnapshotCells();
      ResendByTheClock(state.cfg, s, id);
    }
  }

  /** The loop over the plan in `_advance`. */
  method SweepSubtasks(state: TaskState, timeouts: map<AgentName, real>, now: real) returns (changed: bool)
    requires state.Valid() && state.clock == now && state.cfg.timeouts == timeouts
    modifies state
    ensures state.Valid() && state.clock == now
    ensures state.Snapshot() == AllSwept(state.cfg, old(state.Snapshot()))
    ensures changed <==> exists st :: st in state.plan.subtasks && Ready(old(state.Snapshot()), st)
  {
    hide TaskState.Snapshot, Ready, JoinMet, Visited;
    changed := false;
    ghost var s := state.Snapshot();
    for i := 0 to |state.plan.subtasks|
      invariant state.Valid() && state.clock == now
      invariant state.Snapshot() == Swept(state.cfg, s, i)
      invariant !changed ==> state.Snapshot() == s && forall k :: 0 <= k < i ==> !Ready(s, state.plan.subtasks[k])
      invariant changed ==> exists k :: 0 <= k < i && Ready(s, state.plan.subtasks[k])
    {
      var turned := AdvanceSubtask(state, state.plan.subtasks[i], timeouts, now);
      changed := changed || turned;
    }
  }

  /** `_advance`: rounds until nothing is left to do. */
  method Advance(state: TaskState, timeouts: map<AgentName, real>, now: real)
    requires state.Valid() && state.clock == now && state.cfg.timeouts == timeouts
    modifies state
    ensures state.Valid() && state.clock == now
    ensures state.Snapshot() == Advanced(state.cfg, old(state.Snapshot()))
  {
    var changed := true;
    ghost var s := state.Snapshot();
    while changed
      invariant state.Valid() && state.clock == now
      invariant Advanced(state.cfg, state.Snapshot()) == Advanced(state.cfg, s)
      invariant !changed ==> Quiescent(state.cfg, state.Snapshot())
      decreases Measure(state.Snapshot()), changed
    {
      changed := AdvanceOnce(state, timeouts, now);
    }
  }

  /** One round of the `while` loop of `_advance`. */
  method AdvanceOnce(state: TaskState, timeouts: map<AgentName, real>, now: real) returns (changed: bool)
    requires state.Valid() && state.clock == now && state.cfg.timeouts == timeouts
    modifies state
    ensures state.Valid() && state.clock == now
    ensures state.Snapshot() == RoundOf(state.cfg, old(state.Snapshot()))
    ensures changed <==> !Quiescent(state.cfg, old(state.Snapshot()))
    ensures changed ==> Measure(state.Snapshot()) < Measure(old(state.Snapshot()))
    ensures !changed ==> state.Snapshot() == old(state.Snapshot())
    ensures Advanced(state.cfg, state.Snapshot()) == Advanced(state.cfg, old(state.Snapshot()))
  {
    ghost var s := state.Snapshot();
    RoundFacts(state.cfg, s);
    var swept := SweepSubtasks(state, timeouts, now);
    var expired := ExpireTimeouts(state, now);
    var resent := RepublishDue(state, timeouts, now);
    changed := swept || expired || resent;
  }

  /** A round changes something unless the task is at rest. */
  lemma RoundFacts(cfg: Config, s: State)
    requires Coherent(cfg.plan) && Inv(cfg, s)
    ensures Inv(cfg, RoundOf(cfg, s)) && Advanced(cfg, RoundOf(cfg, s)) == Advanced(cfg, s)
    ensures !Quiescent(cfg, s) ==> Measure(RoundOf(cfg, s)) < Measure(s)
    ensures Quiescent(cfg, s) ==> RoundOf(cfg, s) == s
    ensures Quiescent(cfg, s) <==>
      && (forall st :: st in cfg.plan.subtasks ==> !Ready(s, st)) && ExpiredIds(AllSwept(cfg, s)) == {}
      && DueIds(AllExpired(AllSwept(cfg, s))) == {}
  {
    var acts := RoundAdvances(cfg, s);
    NothingDone(cfg, s);
    if Quiescent(cfg, s) {
      RestIsFixed(cfg, s);
    } else {
      RoundLowers(cfg, s);
      RestlessShows(cfg, s);
    }
  }

  lemma RestlessShows(cfg: Config, s: State)
    requires Coherent(cfg.plan) && Inv(cfg, s) && !Quiescent(cfg, s)
    ensures (exists st :: st in cfg.plan.subtasks && Ready(s, st)) || ExpiredIds(AllSwept(cfg, s)) != {} ||
      DueIds(AllExpired(AllSwept(cfg, s))) != {}
  {
    if forall st :: st in cfg.plan.subtasks ==> !Ready(s, st) {
      NothingSwept(cfg, s, |cfg.plan.subtasks|);
      NothingDone(cfg, s);
      var id :| id in s.cells && (Expired(s.cells[id], s.now) || Due(s.cells[id], s.now));
      assert id in ExpiredIds(s) || id in DueIds(s);
    }
  }

  // ----- Replies -----

  /** The common head of `_route_reply`. */
  method CountReply(state: TaskState, id: Id)
    requires state.Shape()
    modifies state
    ensures state.Shape() && state.CellBecame(id, Counted(old(state.CellOf(id))), 1)
    ensures state.CountedOnce(id)
    ensures state.results == old(state.results) && state.resolvedAt == old(state.resolvedAt)
    ensures state.pending == old(state.pending) && state.published == old(state.published)
    ensures state.retryCounts == old(state.retryCounts) && state.retryAt == old(state.retryAt)
    ensures state.failReason == old(state.failReason)
  {
    state.messagesExchanged := state.messagesExchanged + 1;
    state.deadlines := state.deadlines - {id};
    state.routed := state.routed[id := (if id in state.routed then state.routed[id] else 0) + 1];
    state.CountedCell(id);
  }

  /** The effect of an inform on the record. */
  method StoreResult(state: TaskState, id: Id, content: Content, now: real)
    requires state.Shape() && id in Ids(state.plan)
    modifies state
    ensures state.Shape()
    ensures state.CellBecame(id, old(state.CellOf(id)).(result := Success(content), resolvedAt := Some(now),
                                                        retryAt := None, pending := false), 0)
    ensures state.results == old(state.results)[id := Some(content)]
    ensures state.resolvedAt == old(state.resolvedAt)[id := now]
    ensures state.retryAt == old(state.retryAt) - {id} && state.pending == old(state.pending) - {id}
    ensures unchanged(state`failReason, state`retryCounts, state`deadlines, state`published, state`messagesExchanged,
                      state`firstAttemptAt, state`clock, state`sent)
  {
    hide TaskState.CellOf, TaskState.CellBecame, WellFormed;
    state.results := state.results[id := Some(content)];
    state.resolvedAt := state.resolvedAt[id := now];
    state.retryAt := state.retryAt - {id};
    state.pending := state.pending - {id};
    state.StoredCell(Storing(id, content, now));
  }

  /** A content to be stored durably after the pass. */
  datatype PersistJob = PersistJob(taskId: string, operation: Operation, content: Content)

  /** An inform is routed. */
  method AcceptInform(state: TaskState, id: Id, content: Content, now: real)
    requires state.Valid() && state.clock == now && id in state.pending
    modifies state
    ensures state.Valid() && Enabled(state.cfg, old(state.Snapshot()), Inform(id, content))
    ensures state.Snapshot() == Apply(state.cfg, old(state.Snapshot()), Inform(id, content))
    ensures state.Answered(id, content, now)
  {
    ghost var s := state.Snapshot();
    state.SnapshotCells();
    CountReply(state, id);
    StoreResult(state, id, content, now);
    state.ShowsEffect(s, Inform(id, content));
    StepInv(state.cfg, s, Inform(id, content));
  }

  /** The effect of a refuse on the record. */
  method CountRefuse(state: TaskState, id: Id, reason: string, now: real)
    requires state.Shape() && id in Ids(state.plan)
    modifies state
    ensures state.Shape() && state.Refused(id, reason, now)
    ensures state.CellBecame(id, RetriedOrFailed(Counted(old(state.CellOf(id))), now, "refuse: " + reason), 1)
  {
    hide TaskState.Shape;
    CountReply(state, id);
    RetryOrFail(state, id, "refuse: " + reason, now);
  }

  /** A refuse is routed. */
  method AcceptRefuse(state: TaskState, id: Id, reason: string, now: real)
    requires state.Valid() && state.clock == now && id in state.pending
    modifies state
    ensures state.Valid() && Enabled(state.cfg, old(state.Snapshot()), Refuse(id, reason))
    ensures state.Snapshot() == Apply(state.cfg, old(state.Snapshot()), Refuse(id, reason))
    ensures state.Refused(id, reason, now)
  {
    ghost var s := state.Snapshot();
    state.SnapshotCells();
    CountRefuse(state, id, reason, now);
    state.ShowsEffect(s, Refuse(id, reason));
    StepInv(state.cfg, s, Refuse(id, reason));
  }

  /** `_route_reply`. */
  method RouteReply(state: TaskState, m: Message, now: real) returns (job: Option<PersistJob>)
    requires state.Valid() && state.clock == now
    modifies state
    ensures state.Valid() && state.clock == now
    ensures Reacted(state.cfg, old(state.Snapshot()), ActionFor(old(state.Snapshot()), m), state.Snapshot())
    ensures job == JobFor(state.cfg, old(state.Snapshot()), m)
    ensures !Concerns(m, old(state.pending)) ==> unchanged(state) && job.None?
    ensures Concerns(m, old(state.pending)) && m.performative == REFUSE ==>
      state.Refused(m.subtaskId.value, ReasonOf(m.content), now) && job.None?
    ensures Concerns(m, old(state.pending)) && m.performative != REFUSE ==>
      && state.Answered(m.subtaskId.value, m.content, now) && m.subtaskId.value in Ids(state.plan)
      && job == Some(PersistJob(state.task.id, Get(state.plan, m.subtaskId.value).operation, m.content))
  {
    state.SnapshotCells();
    if m.subtaskId.None? || m.subtaskId.value !in state.pending {
      return None;
    }
    var id := m.subtaskId.value;
    if m.performative == REFUSE {
      AcceptRefuse(state, id, ReasonOf(m.content), now);
      return None;
    }
    AcceptInform(state, id, m.content, now);
    job := Some(PersistJob(state.task.id, Get(state.plan, id).operation, m.content));
  }

  /** The reply names a subtask that is awaited. */
  predicate Concerns(m: Message, pending: set<Id>) {
    m.subtaskId.Some? && m.subtaskId.value in pending
  }

  /** The reply's action, if any, was performed. */
  ghost predicate Reacted(cfg: Config, s: State, act: Option<Action>, t: State) {
    match act
    case None => t == s
    case Some(a) => Enabled(cfg, s, a) && t == Apply(cfg, s, a)
  }

  /** The content an effective inform leaves to be stored. */
  function JobFor(cfg: Config, s: State, m: Message): Option<PersistJob> {
    match ActionFor(s, m)
    case Some(Inform(id, content)) =>
      if id in Ids(cfg.plan) then Some(PersistJob(cfg.task.id, Get(cfg.plan, id).operation, content)) else None
    case _ => None
  }

  /** The contents that a list of replies leaves to be stored. */
  ghost function JobsOf(cfg: Config, s: State, msgs: seq<Message>): seq<PersistJob>
    requires Inv(cfg, s)
  {
    if msgs == [] then []
    else
      var n := |msgs| - 1;
      var job := JobFor(cfg, AfterReplies(cfg, s, msgs[..n]), msgs[n]);
      JobsOf(cfg, s, msgs[..n]) + (if job.Some? then [job.value] else [])
  }
}
