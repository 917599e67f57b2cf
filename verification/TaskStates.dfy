/** The mutable record of one task (`TaskState` in src/agents/coordinator.py). */
module TaskStates {
  import opened Basics
  import opened Plans
  import opened Payloads
  import opened Retry
  import opened Dispatch
  import opened Invariants

  function ResolutionAt(results: Results, id: Id): Resolution {
    if id !in results then Open
    else match results[id]
      case Some(content) => Success(content)
      case None => Failure
  }

  /** A subtask, why it fails or is retried, and when. */
  datatype Occasion = Occasion(id: Id, reason: string, now: real)

  /** A request, how long its answer may take, and when it is sent. */
  datatype Sending = Sending(request: Request, timeout: real, now: real)

  /** The content of an inform and when it is stored. */
  datatype Storing = Storing(id: Id, content: Content, now: real)

  class TaskState {
    const task: Task
    const plan: Plan
    const startedAt: real
    var pending: set<Id>
    var published: set<Id>
    var results: Results
    var retryCounts: map<Id, nat>
    var deadlines: map<Id, real>
    var retryAt: map<Id, real>
    var firstAttemptAt: map<Id, real>
    var resolvedAt: map<Id, real>
    var failReason: map<Id, string>
    var messagesExchanged: nat

    ghost const cfg: Config
    ghost const rank: map<Id, nat>
    ghost var clock: real
    ghost var sent: map<Id, seq<Request>>
    ghost var routed: map<Id, nat>

    /** What the dictionaries and sets hold about one subtask. */
    ghost function CellOf(id: Id): Cell
      reads this
    {
      Cell(id in pending, id in published, ResolutionAt(results, id),
           if id in retryCounts then retryCounts[id] else 0,
           Lookup(deadlines, id), Lookup(retryAt, id), Lookup(firstAttemptAt, id), Lookup(resolvedAt, id), Lookup(failReason, id),
           if id in sent then sent[id] else [], if id in routed then routed[id] else 0)
    }

    /** The protocol state the fields stand for. */
    ghost function Snapshot(): State
      reads this
    {
      State(clock, startedAt, map id | id in Ids(plan) :: CellOf(id), messagesExchanged)
    }

    /** Only subtasks of a well-formed plan occur as keys. */
    ghost predicate Shape()
      reads this
    {
      && cfg.plan == plan && cfg.task == task && WellFormed(plan, rank)
      && pending <= Ids(plan) && published <= Ids(plan) && results.Keys <= Ids(plan)
      && deadlines.Keys <= Ids(plan) && retryAt.Keys <= Ids(plan)
    }

    ghost predicate Valid()
      reads this
    {
      Shape() && Inv(cfg, Snapshot())
    }

    /** The record is valid and stands for s. */
    ghost predicate Shows(s: State)
      reads this
    {
      Valid() && Snapshot() == s
    }

    lemma ShownInv(s: State)
      requires Shows(s)
      ensures Snapshot() == s && Inv(cfg, s) && cfg.task.id == task.id && Coherent(cfg.plan) && s.now == clock
    {
    }

    lemma SnapshotIs(s: State)
      requires s.now == clock && s.startedAt == startedAt && s.messagesExchanged == messagesExchanged
      requires s.cells.Keys == Ids(plan) && forall id :: id in Ids(plan) ==> CellOf(id) == s.cells[id]
      ensures Snapshot() == s
    {
      assert Snapshot().cells == s.cells;
    }

    lemma SnapshotCells()
      ensures forall id :: id in Ids(plan) ==> id in Snapshot().cells && CellOf(id) == Snapshot().cells[id]
    {
    }

    /** The fields show the effect of an action on state s. */
    lemma ShowsEffect(s: State, a: Action)
      requires Inv(cfg, s) && cfg.plan == plan && !a.Sample? && Enabled(cfg, s, a)
      requires clock == s.now && startedAt == s.startedAt
      requires CellOf(a.id) == NewCell(cfg, s, a)
      requires forall id :: id in Ids(plan) && id != a.id ==> CellOf(id) == s.cells[id]
      requires messagesExchanged == s.messagesExchanged + MessagesOf(a)
      ensures Snapshot() == Apply(cfg, s, a)
    {
      SnapshotIs(Apply(cfg, s, a));
    }

    lemma ResultsMatch()
      requires Shape()
      ensures ResultsOf(Snapshot()) == results
    {
      CellResults();
      hide Snapshot, CellOf;
      assert ResultsOf(Snapshot()).Keys == results.Keys;
    }

    lemma CellResults()
      requires Shape()
      ensures Snapshot().cells.Keys == Ids(plan) && results.Keys <= Ids(plan)
      ensures forall id :: id in Ids(plan) ==> Snapshot().cells[id].result == ResolutionAt(results, id)
    {
    }

    lemma PendingShown()
      requires Shape()
      ensures pending != {} <==> HasPending(Snapshot())
    {
      assert forall id :: id in pending <==> id in Ids(plan) && Snapshot().cells[id].pending;
    }

    // ----- Effects on the fields and on the cells -----

    /** Only the cell of `id` changed, to c; so many more messages were counted. */
    twostate predicate CellBecame(id: Id, c: Cell, messages: nat)
      reads this
    {
      && clock == old(clock)
      && messagesExchanged == old(messagesExchanged) + messages
      && CellOf(id) == c
      && forall x :: x != id ==> CellOf(x) == old(CellOf(x))
    }

    /** The fields `_fail_subtask` leaves behind. */
    twostate predicate FieldsFailed(id: Id, reason: string, now: real)
      reads this
    {
      && results == old(results)[id := None]
      && failReason == old(failReason)[id := reason]
      && resolvedAt == old(resolvedAt)[id := now]
      && deadlines == old(deadlines) - {id}
      && retryAt == old(retryAt) - {id}
      && published == old(published) + {id}
      && pending == old(pending) - {id}
      && retryCounts == old(retryCounts)
      && firstAttemptAt == old(firstAttemptAt)
      && messagesExchanged == old(messagesExchanged)
      && clock == old(clock) && sent == old(sent) && routed == old(routed)
    }

    twostate lemma FailedCell(o: Occasion)
      requires FieldsFailed(o.id, o.reason, o.now)
      ensures CellBecame(o.id, Failed(old(CellOf(o.id)), o.now, o.reason), 0)
    {
    }

    /** The fields the scheduling of a retry leaves behind. */
    twostate predicate FieldsRetried(id: Id, count: nat, at: real, reason: string)
      reads this
    {
      && retryCounts == old(retryCounts)[id := count]
      && retryAt == old(retryAt)[id := at]
      && failReason == old(failReason)[id := reason]
      && results == old(results) && resolvedAt == old(resolvedAt)
      && deadlines == old(deadlines) && published == old(published)
      && pending == old(pending) && firstAttemptAt == old(firstAttemptAt)
      && messagesExchanged == old(messagesExchanged)
      && clock == old(clock) && sent == old(sent) && routed == old(routed)
    }

    /** The fields `_schedule_retry_or_fail` leaves behind. */
    twostate predicate FieldsRetriedOrFailed(id: Id, reason: string, now: real)
      reads this
    {
      var k := old(CellOf(id)).retries;
      if k >= RETRY_MAX then FieldsFailed(id, reason, now)
      else FieldsRetried(id, k + 1, now + BACKOFF_SECONDS[k], reason)
    }

    twostate lemma RetriedOrFailedCell(o: Occasion)
      requires FieldsRetriedOrFailed(o.id, o.reason, o.now)
      ensures CellBecame(o.id, RetriedOrFailed(old(CellOf(o.id)), o.now, o.reason), 0)
    {
    }

    /** One request more was sent for the subtask: addressed to its agent, and showing
        what the task and the results so far hold for its operation. */
    twostate predicate HandedOver(st: Subtask, now: real)
      reads this
    {
      && st.id in sent && sent[st.id] != []
      && var r := sent[st.id][|sent[st.id]| - 1];
         && sent == old(sent)[st.id := (if st.id in old(sent) then old(sent)[st.id] else []) + [r]]
         && r.subtaskId == st.id && r.agent == st.agent && r.at == now
         && r.conversationId == "conv-" + task.id + "-" + OperationValue(st.operation)
         && Carries(r.content, st.operation, task, old(results))
    }

    // ----- Effects of a reply -----

    /** A refuse within the retry budget: the next attempt is due one second from
        now, the second time four seconds; otherwise the subtask has failed. */
    twostate predicate Refused(id: Id, reason: string, now: real)
      reads this
    {
      var k := if id in old(retryCounts) then old(retryCounts)[id] else 0;
      && CountedOnce(id)
      && failReason == old(failReason)[id := "refuse: " + reason]
      && if k < 2 then
           && retryCounts == old(retryCounts)[id := k + 1]
           && retryAt == old(retryAt)[id := now + (if k == 0 then 1.0 else 4.0)]
           && results == old(results) && resolvedAt == old(resolvedAt)
           && pending == old(pending) && published == old(published)
         else
           && results == old(results)[id := None] && resolvedAt == old(resolvedAt)[id := now]
           && pending == old(pending) - {id} && published == old(published) + {id}
           && retryCounts == old(retryCounts) && retryAt == old(retryAt) - {id}
    }

    /** An inform: the content is the result, whatever was scheduled. */
    twostate predicate Answered(id: Id, content: Content, now: real)
      reads this
    {
      && CountedOnce(id)
      && results == old(results)[id := Some(content)] && resolvedAt == old(resolvedAt)[id := now]
      && pending == old(pending) - {id} && published == old(published)
      && retryCounts == old(retryCounts) && retryAt == old(retryAt) - {id} && failReason == old(failReason)
    }

    /** One message more was exchanged, and the attempt is over. */
    twostate predicate CountedOnce(id: Id)
      reads this
    {
      && messagesExchanged == old(messagesExchanged) + 1 && deadlines == old(deadlines) - {id}
      && firstAttemptAt == old(firstAttemptAt) && clock == old(clock) && sent == old(sent)
    }

    /** The fields `_publish` leaves behind. */
    twostate predicate FieldsPublished(request: Request, deadline: real, now: real)
      reads this
    {
      var id := request.subtaskId;
      && sent == old(sent)[id := (if id in old(sent) then old(sent)[id] else []) + [request]]
      && published == old(published) + {id}
      && messagesExchanged == old(messagesExchanged) + 1
      && deadlines == old(deadlines)[id := deadline]
      && firstAttemptAt == (if id in old(firstAttemptAt) then old(firstAttemptAt) else old(firstAttemptAt)[id := now])
      && results == old(results) && resolvedAt == old(resolvedAt)
      && failReason == old(failReason) && retryCounts == old(retryCounts)
      && retryAt == old(retryAt) && pending == old(pending)
      && clock == old(clock) && routed == old(routed)
    }

    twostate lemma PublishedCell(o: Sending)
      requires FieldsPublished(o.request, o.now + o.timeout, o.now)
      ensures CellBecame(o.request.subtaskId,
                         Published(old(CellOf(o.request.subtaskId)), o.now, o.timeout, o.request), 1)
    {
    }

    /** Every field but the timers is as before. */
    twostate predicate AllButTimers()
      reads this
    {
      && results == old(results) && resolvedAt == old(resolvedAt)
      && failReason == old(failReason) && retryCounts == old(retryCounts)
      && published == old(published) && pending == old(pending)
      && firstAttemptAt == old(firstAttemptAt) && messagesExchanged == old(messagesExchanged)
      && clock == old(clock) && sent == old(sent) && routed == old(routed)
    }

    twostate lemma DroppedDeadline(id: Id)
      requires AllButTimers() && deadlines == old(deadlines) - {id} && retryAt == old(retryAt)
      ensures CellBecame(id, old(CellOf(id)).(deadline := None), 0)
    {
    }

    twostate lemma DroppedRetry(id: Id)
      requires AllButTimers() && retryAt == old(retryAt) - {id} && deadlines == old(deadlines)
      ensures CellBecame(id, old(CellOf(id)).(retryAt := None), 0)
    {
    }

    twostate lemma CountedCell(id: Id)
      requires messagesExchanged == old(messagesExchanged) + 1
      requires deadlines == old(deadlines) - {id}
      requires routed == old(routed)[id := (if id in old(routed) then old(routed)[id] else 0) + 1]
      requires results == old(results) && resolvedAt == old(resolvedAt)
      requires failReason == old(failReason) && retryCounts == old(retryCounts) && retryAt == old(retryAt)
      requires published == old(published) && pending == old(pending)
      requires firstAttemptAt == old(firstAttemptAt) && clock == old(clock) && sent == old(sent)
      ensures CellBecame(id, Counted(old(CellOf(id))), 1)
    {
    }

    twostate lemma StoredCell(o: Storing)
      requires results == old(results)[o.id := Some(o.content)]
      requires resolvedAt == old(resolvedAt)[o.id := o.now]
      requires retryAt == old(retryAt) - {o.id} && pending == old(pending) - {o.id}
      requires failReason == old(failReason) && retryCounts == old(retryCounts) && deadlines == old(deadlines)
      requires published == old(published) && routed == old(routed) && messagesExchanged == old(messagesExchanged)
      requires firstAttemptAt == old(firstAttemptAt) && clock == old(clock) && sent == old(sent)
      ensures CellBecame(o.id, old(CellOf(o.id)).(result := Success(o.content), resolvedAt := Some(o.now),
                                                  retryAt := None, pending := false), 0)
    {
    }

    /** `submit` starts with nothing loaded, `_resume` with the reloaded results. */
    constructor (task: Task, plan: Plan, loaded: map<Id, Content>, now: real,
                 ghost cfg: Config, ghost rank: map<Id, nat>)
      requires cfg.plan == plan && cfg.task == task && WellFormed(plan, rank) && loaded.Keys <= Ids(plan)
      ensures Valid() && Snapshot() == Initial(cfg, loaded, now)
      ensures this.task == task && this.plan == plan && this.startedAt == now && clock == now
      ensures this.cfg == cfg && this.rank == rank
    {
      this.task := task;
      this.plan := plan;
      this.startedAt := now;
      this.cfg := cfg;
      this.rank := rank;
      pending := set id | id in Ids(plan) && id !in loaded;
      published := loaded.Keys;
      results := map id | id in loaded :: Some(loaded[id]);
      resolvedAt := map id | id in loaded :: now;
      retryCounts, deadlines, retryAt, firstAttemptAt, failReason := map[], map[], map[], map[], map[];
      messagesExchanged := 0;
      clock := now;
      sent, routed := map[], map[];
      new;
      InitialInv(cfg, loaded, now);
      SnapshotIs(Initial(cfg, loaded, now));
    }

    /** The clock has been read again. */
    ghost method Observe(s: State, now: real) returns (end: State)
      requires Shows(s) && now >= s.now
      modifies this`clock
      ensures end == s.(now := now) && Shows(end)
    {
      end := s.(now := now);
      assert forall id :: id in Ids(plan) ==> CellOf(id) == s.cells[id];
      clock := now;
      SnapshotIs(end);
    }
  }
}
