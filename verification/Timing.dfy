/** Worst-case time: how long a subtask can stay unresolved, and a task with it.
    The bounds assume only that the clock is read at least every `delta` seconds
    and that no timeout is negative; replies are arbitrary. */
module Timing {
  import opened Basics
  import opened Plans
  import opened Retry
  import opened Dispatch
  import opened Invariants

  /** The latest deadline an attempt can get after r retries. */
  function AttemptBound(first: real, timeout: real, delta: real, r: nat): real
    requires r <= RETRY_MAX
    decreases r, 0
  {
    if r == 0 then first + timeout else BackoffBound(first, timeout, delta, r) + delta + timeout
  }

  /** The latest moment the r-th retry can be scheduled for. */
  function BackoffBound(first: real, timeout: real, delta: real, r: nat): real
    requires 1 <= r <= RETRY_MAX
    decreases r - 1, 1
  {
    AttemptBound(first, timeout, delta, r - 1) + delta + BACKOFF_SECONDS[r - 1]
  }

  /** In closed form: three attempts, the two backoffs, four clock readings. */
  lemma AttemptBoundClosed(first: real, timeout: real, delta: real)
    ensures AttemptBound(first, timeout, delta, 0) == first + timeout
    ensures BackoffBound(first, timeout, delta, 1) == first + timeout + 1.0 + delta
    ensures AttemptBound(first, timeout, delta, 1) == first + 2.0 * timeout + 1.0 + 2.0 * delta
    ensures BackoffBound(first, timeout, delta, 2) == first + 2.0 * timeout + 5.0 + 3.0 * delta
    ensures AttemptBound(first, timeout, delta, 2) == first + 3.0 * timeout + 5.0 + 4.0 * delta
  {
    assert AttemptBound(first, timeout, delta, 1) == BackoffBound(first, timeout, delta, 1) + delta + timeout;
    assert AttemptBound(first, timeout, delta, 2) == BackoffBound(first, timeout, delta, 2) + delta + timeout;
  }

  /** Timers lie within the bounds of their attempt and never in the past by
      more than one clock reading. */
  predicate TimerInv(c: Cell, now: real, timeout: real, delta: real)
    requires c.retries <= RETRY_MAX
  {
    && (c.firstAttemptAt.Some? ==> c.firstAttemptAt.value <= now)
    && (c.deadline.Some? && c.firstAttemptAt.Some? ==>
          && c.deadline.value <= AttemptBound(c.firstAttemptAt.value, timeout, delta, c.retries)
          && now <= c.deadline.value + delta)
    && (c.retryAt.Some? ==> now <= c.retryAt.value + delta)
    && (c.retryAt.Some? && 1 <= c.retries ==>
          if c.firstAttemptAt.Some? then
            c.retryAt.value <= BackoffBound(c.firstAttemptAt.value, timeout, delta, c.retries)
          else
            c.retryAt.value <= now + BACKOFF_SECONDS[c.retries - 1])
  }

  ghost predicate TimeoutsNonNegative(cfg: Config) {
    forall st :: st in cfg.plan.subtasks ==> TimeoutFor(cfg.timeouts, st.agent) >= 0.0
  }

  function TimeoutOf(cfg: Config, id: Id): real
    requires id in Ids(cfg.plan)
  {
    TimeoutFor(cfg.timeouts, Get(cfg.plan, id).agent)
  }

  lemma NewCellTimers(cfg: Config, s: State, a: Action, delta: real)
    requires Inv(cfg, s) && Enabled(cfg, s, a) && !a.Sample?
    requires delta >= 0.0 && TimeoutOf(cfg, a.id) >= 0.0
    requires TimerInv(s.cells[a.id], s.now, TimeoutOf(cfg, a.id), delta)
    ensures NewCell(cfg, s, a).retries <= RETRY_MAX
    ensures TimerInv(NewCell(cfg, s, a), s.now, TimeoutOf(cfg, a.id), delta)
  {
    var c, timeout := s.cells[a.id], TimeoutOf(cfg, a.id);
    assert CellInv(c);
    match a
    case Inform(_, _) =>
    case Refuse(_, reason) => RetryTimers(Counted(c), s.now, "refuse: " + reason, timeout, delta);
    case Send(_) => ResentTimers(c, s.now, timeout, RequestFor(cfg, s, Get(cfg.plan, a.id)), delta);
    case Skip(_) =>
    case Expire(_) => RetryTimers(c.(deadline := None), s.now, "timeout", timeout, delta);
    case Republish(_) =>
      ResentTimers(c.(retryAt := None), s.now, timeout, RequestFor(cfg, s, Get(cfg.plan, a.id)), delta);
  }

  /** An attempt given up at a moment within the bounds of its timers. */
  lemma RetryTimers(c: Cell, now: real, reason: string, timeout: real, delta: real)
    requires c.retries <= RETRY_MAX && delta >= 0.0 && timeout >= 0.0 && c.deadline == None
    requires TimerInv(c, now, timeout, delta)
    requires c.firstAttemptAt.Some? ==> now <= AttemptBound(c.firstAttemptAt.value, timeout, delta, c.retries) + delta
    ensures var c' := RetriedOrFailed(c, now, reason); c'.retries <= RETRY_MAX && TimerInv(c', now, timeout, delta)
  {
  }

  /** An attempt sent at a moment within the bounds of its timers. */
  lemma ResentTimers(c: Cell, now: real, timeout: real, request: Request, delta: real)
    requires c.retries <= RETRY_MAX && delta >= 0.0 && timeout >= 0.0 && TimerInv(c, now, timeout, delta)
    requires c.firstAttemptAt.Some? ==> now + timeout <= AttemptBound(c.firstAttemptAt.value, timeout, delta, c.retries)
    ensures TimerInv(Published(c, now, timeout, request), now, timeout, delta)
  {
    AttemptBoundClosed(now, timeout, delta);
  }

  // ----- The critical path -----

  /** The most a subtask can take from its first attempt to its resolution. */
  function Span(cfg: Config, delta: real, id: Id): real
    requires id in Ids(cfg.plan)
  {
    3.0 * TimeoutOf(cfg, id) + 5.0 + 5.0 * delta
  }

  /** Seconds after the start of the task by which a subtask is resolved: its
      own span after the last of its dependencies. */
  ghost function FinishBy(cfg: Config, rank: map<Id, nat>, delta: real, id: Id): real
    requires WellFormed(cfg.plan, rank) && id in Ids(cfg.plan)
    decreases rank[id], 1, 0
  {
    StartBy(cfg, rank, delta, Get(cfg.plan, id).dependsOn, rank[id]) + Span(cfg, delta, id)
  }

  /** The latest finish among the given dependencies. */
  ghost function StartBy(cfg: Config, rank: map<Id, nat>, delta: real, deps: seq<Id>, level: nat): (r: real)
    requires WellFormed(cfg.plan, rank)
    requires forall d :: d in deps ==> d in Ids(cfg.plan) && rank[d] < level
    ensures r >= 0.0
    ensures forall d :: d in deps ==> FinishBy(cfg, rank, delta, d) <= r
    decreases level, 0, |deps|
  {
    if deps == [] then 0.0
    else
      var rest := StartBy(cfg, rank, delta, deps[1..], level);
      var head := FinishBy(cfg, rank, delta, deps[0]);
      assert forall d :: d in deps ==> d == deps[0] || d in deps[1..];
      if head > rest then head else rest
  }

  ghost function ReadyBy(cfg: Config, rank: map<Id, nat>, delta: real, id: Id): (r: real)
    requires WellFormed(cfg.plan, rank) && id in Ids(cfg.plan)
    ensures r >= 0.0
    ensures forall d :: d in Get(cfg.plan, id).dependsOn ==> FinishBy(cfg, rank, delta, d) <= r
    ensures FinishBy(cfg, rank, delta, id) == r + Span(cfg, delta, id)
  {
    StartBy(cfg, rank, delta, Get(cfg.plan, id).dependsOn, rank[id])
  }

  /** Everything so far happened within the bounds of the critical path. */
  ghost predicate OnSchedule(cfg: Config, rank: map<Id, nat>, delta: real, s: State)
    requires WellFormed(cfg.plan, rank) && Inv(cfg, s)
  {
    && (forall id :: id in s.cells ==> CellOnSchedule(cfg, rank, delta, s, id))
    && (forall st :: st in cfg.plan.subtasks && Ready(s, st) ==>
          s.now <= s.startedAt + ReadyBy(cfg, rank, delta, st.id))
  }

  ghost predicate CellOnSchedule(cfg: Config, rank: map<Id, nat>, delta: real, s: State, id: Id)
    requires WellFormed(cfg.plan, rank) && Inv(cfg, s) && id in s.cells
  {
    var c := s.cells[id];
    && CellInv(c)
    && TimerInv(c, s.now, TimeoutOf(cfg, id), delta)
    && (c.firstAttemptAt.Some? ==> c.firstAttemptAt.value <= s.startedAt + ReadyBy(cfg, rank, delta, id))
    && (c.resolvedAt.Some? ==> c.resolvedAt.value <= s.startedAt + FinishBy(cfg, rank, delta, id))
  }

  /** A pending, published subtask has at most its span left since its first
      attempt; read at rest, one clock reading less. */
  lemma PublishedWithinSpan(cfg: Config, s: State, id: Id, delta: real)
    requires Inv(cfg, s) && id in s.cells && s.cells[id].pending && s.cells[id].published
    requires delta >= 0.0 && TimeoutOf(cfg, id) >= 0.0
    requires CellInv(s.cells[id]) && TimerInv(s.cells[id], s.now, TimeoutOf(cfg, id), delta)
    ensures s.cells[id].firstAttemptAt.Some?
    ensures s.now <= s.cells[id].firstAttemptAt.value + Span(cfg, delta, id)
    ensures Quiescent(cfg, s) ==> s.now <= s.cells[id].firstAttemptAt.value + Span(cfg, delta, id) - delta
  {
    var c := s.cells[id];
    AttemptBoundClosed(c.firstAttemptAt.value, TimeoutOf(cfg, id), delta);
  }

  /** While a subtask is pending, its time is not up. */
  lemma {:induction false} PendingInTime(cfg: Config, rank: map<Id, nat>, delta: real, s: State, id: Id)
    requires WellFormed(cfg.plan, rank) && Inv(cfg, s) && TimeoutsNonNegative(cfg) && delta >= 0.0
    requires OnSchedule(cfg, rank, delta, s) && id in s.cells && s.cells[id].pending
    ensures s.now <= s.startedAt + FinishBy(cfg, rank, delta, id)
    ensures !s.cells[id].published ==> s.now <= s.startedAt + ReadyBy(cfg, rank, delta, id)
    decreases rank[id]
  {
    var st := Get(cfg.plan, id);
    assert CellOnSchedule(cfg, rank, delta, s, id);
    if s.cells[id].published {
      PublishedWithinSpan(cfg, s, id, delta);
    } else if !Ready(s, st) {
      var d :| d in st.dependsOn && !Resolved(s, d);
      assert d in Ids(cfg.plan) && CellInv(s.cells[d]);
      PendingInTime(cfg, rank, delta, s, d);
    }
  }

  /** The clock is read at least every delta seconds. */
  predicate Timely(s: State, a: Action, delta: real) {
    a.Sample? ==> a.t <= s.now + delta
  }

  ghost predicate LegalTimely(cfg: Config, s: State, acts: seq<Action>, delta: real)
    decreases |acts|
  {
    acts == [] ||
    (Enabled(cfg, s, acts[0]) && Timely(s, acts[0], delta) &&
     LegalTimely(cfg, Apply(cfg, s, acts[0]), acts[1..], delta))
  }

  lemma SampleOnSchedule(cfg: Config, rank: map<Id, nat>, delta: real, s: State, a: Action)
    requires WellFormed(cfg.plan, rank) && Inv(cfg, s) && delta >= 0.0
    requires OnSchedule(cfg, rank, delta, s) && Enabled(cfg, s, a) && Timely(s, a, delta) && a.Sample?
    ensures Inv(cfg, Apply(cfg, s, a)) && OnSchedule(cfg, rank, delta, Apply(cfg, s, a))
  {
    var t := Apply(cfg, s, a);
    StepInv(cfg, s, a);
    forall id | id in t.cells ensures CellOnSchedule(cfg, rank, delta, t, id) {
      assert CellOnSchedule(cfg, rank, delta, s, id);
    }
    forall st | st in cfg.plan.subtasks ensures !Ready(t, st) {
      assert !Ready(s, st);
    }
  }

  lemma NewCellMoments(cfg: Config, s: State, a: Action)
    requires Inv(cfg, s) && Enabled(cfg, s, a) && !a.Sample?
    ensures var c, c' := s.cells[a.id], NewCell(cfg, s, a);
      && c.pending
      && (c'.firstAttemptAt == c.firstAttemptAt || (c'.firstAttemptAt == Some(s.now) && !c.published))
      && (c'.resolvedAt == c.resolvedAt || c'.resolvedAt == Some(s.now))
  {
    assert CellInv(s.cells[a.id]);
  }

  lemma ActedCellOnSchedule(cfg: Config, rank: map<Id, nat>, delta: real, s: State, a: Action)
    requires WellFormed(cfg.plan, rank) && Inv(cfg, s) && TimeoutsNonNegative(cfg) && delta >= 0.0
    requires OnSchedule(cfg, rank, delta, s) && Enabled(cfg, s, a) && !a.Sample?
    requires Inv(cfg, Apply(cfg, s, a))
    ensures CellOnSchedule(cfg, rank, delta, Apply(cfg, s, a), a.id)
  {
    var c, c' := s.cells[a.id], NewCell(cfg, s, a);
    assert CellOnSchedule(cfg, rank, delta, s, a.id);
    NewCellTimers(cfg, s, a, delta);
    NewCellMoments(cfg, s, a);
    PendingInTime(cfg, rank, delta, s, a.id);
    var t := Apply(cfg, s, a);
    assert t.cells[a.id] == c' && CellInv(c') && t.now == s.now && t.startedAt == s.startedAt;
  }

  lemma StepOnSchedule(cfg: Config, rank: map<Id, nat>, delta: real, s: State, a: Action)
    requires WellFormed(cfg.plan, rank) && Inv(cfg, s) && TimeoutsNonNegative(cfg) && delta >= 0.0
    requires OnSchedule(cfg, rank, delta, s) && Enabled(cfg, s, a) && Timely(s, a, delta)
    ensures Inv(cfg, Apply(cfg, s, a)) && OnSchedule(cfg, rank, delta, Apply(cfg, s, a))
  {
    var t := Apply(cfg, s, a);
    StepInv(cfg, s, a);
    if a.Sample? {
      SampleOnSchedule(cfg, rank, delta, s, a);
      return;
    }
    forall id | id in t.cells ensures CellOnSchedule(cfg, rank, delta, t, id) {
      if id == a.id {
        ActedCellOnSchedule(cfg, rank, delta, s, a);
      } else {
        assert CellOnSchedule(cfg, rank, delta, s, id);
      }
    }
    forall st | st in cfg.plan.subtasks && Ready(t, st)
      ensures t.now <= t.startedAt + ReadyBy(cfg, rank, delta, st.id)
    {
      ReadyOnSchedule(cfg, rank, delta, s, a, st);
    }
  }

  /** A subtask that has become ready became so just now. */
  lemma ReadyOnSchedule(cfg: Config, rank: map<Id, nat>, delta: real, s: State, a: Action, st: Subtask)
    requires WellFormed(cfg.plan, rank) && Inv(cfg, s) && TimeoutsNonNegative(cfg) && delta >= 0.0
    requires OnSchedule(cfg, rank, delta, s) && Enabled(cfg, s, a) && !a.Sample?
    requires st in cfg.plan.subtasks && Ready(Apply(cfg, s, a), st)
    ensures s.now <= s.startedAt + ReadyBy(cfg, rank, delta, st.id)
  {
    GetIsEntry(cfg.plan, rank, st);
    var t := Apply(cfg, s, a);
    if a.id == st.id {
      assert CellInv(s.cells[st.id]);
      PendingInTime(cfg, rank, delta, s, st.id);
    } else if a.id in st.dependsOn {
      assert CellInv(s.cells[a.id]);
      if s.cells[a.id].pending {
        PendingInTime(cfg, rank, delta, s, a.id);
      }
    } else {
      assert forall d :: d in st.dependsOn ==> Resolved(t, d) ==> Resolved(s, d);
      assert Ready(s, st);
    }
  }

  lemma {:induction false} RunOnSchedule(cfg: Config, rank: map<Id, nat>, delta: real, s: State, acts: seq<Action>)
    requires WellFormed(cfg.plan, rank) && Inv(cfg, s) && TimeoutsNonNegative(cfg) && delta >= 0.0
    requires OnSchedule(cfg, rank, delta, s) && LegalTimely(cfg, s, acts, delta)
    ensures Legal(cfg, s, acts) && Inv(cfg, Exec(cfg, s, acts)) && OnSchedule(cfg, rank, delta, Exec(cfg, s, acts))
    ensures Exec(cfg, s, acts).startedAt == s.startedAt
    decreases |acts|
  {
    if acts != [] {
      StepOnSchedule(cfg, rank, delta, s, acts[0]);
      RunOnSchedule(cfg, rank, delta, Apply(cfg, s, acts[0]), acts[1..]);
    }
  }

  lemma InitialOnSchedule(cfg: Config, rank: map<Id, nat>, delta: real, stored: map<Id, Content>, t: real)
    requires WellFormed(cfg.plan, rank) && TimeoutsNonNegative(cfg) && delta >= 0.0
    ensures Inv(cfg, Initial(cfg, stored, t)) && OnSchedule(cfg, rank, delta, Initial(cfg, stored, t))
  {
    var s := Initial(cfg, stored, t);
    InitialInv(cfg, stored, t);
    forall id | id in s.cells ensures CellOnSchedule(cfg, rank, delta, s, id) {
      assert FinishBy(cfg, rank, delta, id) >= 0.0;
    }
    forall st | st in cfg.plan.subtasks
      ensures st.id in Ids(cfg.plan) && s.now <= s.startedAt + ReadyBy(cfg, rank, delta, st.id)
    {
      GetIsEntry(cfg.plan, rank, st);
    }
  }

  /** Worst-case time of every run, whatever the replies and however late: a
      subtask is resolved within its span after its first attempt and by its
      place on the critical path after the start of the task.  So once the
      clock passes every critical path, nothing is pending any more. */
  lemma WorstCaseTime(cfg: Config, rank: map<Id, nat>, delta: real,
                      stored: map<Id, Content>, t: real, acts: seq<Action>, id: Id)
    requires WellFormed(cfg.plan, rank) && TimeoutsNonNegative(cfg) && delta >= 0.0
    requires LegalTimely(cfg, Initial(cfg, stored, t), acts, delta) && id in Ids(cfg.plan)
    ensures Legal(cfg, Initial(cfg, stored, t), acts)
    ensures var s := Exec(cfg, Initial(cfg, stored, t), acts);
      && id in s.cells
      && (s.cells[id].pending ==> s.now <= t + FinishBy(cfg, rank, delta, id))
      && (s.cells[id].resolvedAt.Some? ==> s.cells[id].resolvedAt.value <= t + FinishBy(cfg, rank, delta, id))
      && (s.cells[id].pending && s.cells[id].published && Quiescent(cfg, s) ==>
            && s.cells[id].firstAttemptAt.Some?
            && s.now <= s.cells[id].firstAttemptAt.value + 3.0 * TimeoutOf(cfg, id) + 5.0 + 4.0 * delta)
  {
    InitialOnSchedule(cfg, rank, delta, stored, t);
    var init := Initial(cfg, stored, t);
    RunOnSchedule(cfg, rank, delta, init, acts);
    var s := Exec(cfg, init, acts);
    assert CellOnSchedule(cfg, rank, delta, s, id);
    if s.cells[id].pending {
      PendingInTime(cfg, rank, delta, s, id);
      if s.cells[id].published {
        PublishedWithinSpan(cfg, s, id, delta);
      }
    }
  }

  // ----- Built plans -----

  ghost predicate IsBuilt(cfg: Config) {
    cfg.plan == BuildPlan(cfg.task) && WellFormed(cfg.plan, PlanRank(cfg.task))
  }

  /** A built plan run with the built-in timeouts. */
  ghost predicate IsDefault(cfg: Config) {
    IsBuilt(cfg) && cfg.timeouts == map[]
  }

  /** The longest attempts of the ingestions, of the operations on their chunks, and
      of those on the summary and the terms. */
  datatype Caps = Caps(ingestion: real, chunks: real, summary: real)

  predicate Capped(timeouts: map<AgentName, real>, caps: Caps) {
    && 0.0 <= TimeoutFor(timeouts, Transcriber) <= caps.ingestion && 0.0 <= TimeoutFor(timeouts, Ocr) <= caps.ingestion
    && 0.0 <= TimeoutFor(timeouts, Summarizer) <= caps.chunks && 0.0 <= TimeoutFor(timeouts, Terminology) <= caps.chunks
    && 0.0 <= TimeoutFor(timeouts, TestGenerator) <= caps.summary
    && 0.0 <= TimeoutFor(timeouts, Recommender) <= caps.summary
  }

  lemma CappedIsNonNegative(cfg: Config, caps: Caps)
    requires Capped(cfg.timeouts, caps)
    ensures TimeoutsNonNegative(cfg)
  {
    forall agent: AgentName | true ensures TimeoutFor(cfg.timeouts, agent) >= 0.0 {
      match agent
      case Transcriber =>
      case Ocr =>
      case Summarizer =>
      case TestGenerator =>
      case Terminology =>
      case Recommender =>
    }
  }

  lemma UpstreamFinish(cfg: Config, delta: real, st: Subtask, bound: real)
    requires IsBuilt(cfg) && st in cfg.plan.subtasks && bound >= 0.0
    requires forall d :: d in st.dependsOn ==> FinishBy(cfg, PlanRank(cfg.task), delta, d) <= bound
    ensures st.id in Ids(cfg.plan)
    ensures FinishBy(cfg, PlanRank(cfg.task), delta, st.id)
              <= bound + 3.0 * TimeoutFor(cfg.timeouts, AgentOf(st.operation)) + 5.0 + 5.0 * delta
  {
    var rank := PlanRank(cfg.task);
    GetIsEntry(cfg.plan, rank, st);
    BuildPlanEntries(cfg.task, st);
    StartAtMost(cfg, rank, delta, st.dependsOn, rank[st.id], bound);
  }

  lemma {:induction false} StartAtMost(cfg: Config, rank: map<Id, nat>, delta: real, deps: seq<Id>, level: nat, bound: real)
    requires WellFormed(cfg.plan, rank) && bound >= 0.0
    requires forall d :: d in deps ==> d in Ids(cfg.plan) && rank[d] < level
    requires forall d :: d in deps ==> FinishBy(cfg, rank, delta, d) <= bound
    ensures StartBy(cfg, rank, delta, deps, level) <= bound
    decreases |deps|
  {
    if deps != [] {
      assert deps[0] in deps && forall d :: d in deps[1..] ==> d in deps;
      StartAtMost(cfg, rank, delta, deps[1..], level, bound);
    }
  }

  /** The bounds add up along the layers of the plan. */
  function LayerFinish(op: Operation, caps: Caps, delta: real): real {
    match op
    case F1 => 3.0 * caps.ingestion + 5.0 + 5.0 * delta
    case F2 => 3.0 * caps.ingestion + 5.0 + 5.0 * delta
    case F3 => 3.0 * (caps.ingestion + caps.chunks) + 10.0 + 10.0 * delta
    case F5 => 3.0 * (caps.ingestion + caps.chunks) + 10.0 + 10.0 * delta
    case _ => 3.0 * (caps.ingestion + caps.chunks + caps.summary) + 15.0 + 15.0 * delta
  }

  lemma {:induction false} LayerFinishBound(cfg: Config, caps: Caps, delta: real, st: Subtask)
    requires IsBuilt(cfg) && Capped(cfg.timeouts, caps) && st in cfg.plan.subtasks && delta >= 0.0
    ensures st.id in Ids(cfg.plan)
    ensures FinishBy(cfg, PlanRank(cfg.task), delta, st.id) <= LayerFinish(st.operation, caps, delta)
    decreases OperationRank(st.operation)
  {
    hide FinishBy, BuildPlan, PlanRank;
    var rank := PlanRank(cfg.task);
    var bound := match st.operation
      case F1 => 0.0
      case F2 => 0.0
      case F3 => LayerFinish(F1, caps, delta)
      case F5 => LayerFinish(F1, caps, delta)
      case F4 => LayerFinish(F3, caps, delta)
      case F6 => LayerFinish(F3, caps, delta);
    forall d | d in st.dependsOn ensures FinishBy(cfg, rank, delta, d) <= bound {
      var up := DependencyEntry(cfg.task, st, d);
      LayerFinishBound(cfg, caps, delta, up);
    }
    UpstreamFinish(cfg, delta, st, bound);
  }

  lemma LayersPendingInTime(cfg: Config, caps: Caps, delta: real, s: State, id: Id)
    requires IsBuilt(cfg) && Capped(cfg.timeouts, caps) && delta >= 0.0
    requires Inv(cfg, s) && OnSchedule(cfg, PlanRank(cfg.task), delta, s)
    requires id in s.cells && s.cells[id].pending && TimeoutsNonNegative(cfg)
    ensures s.now <= s.startedAt + 3.0 * (caps.ingestion + caps.chunks + caps.summary) + 15.0 + 15.0 * delta
  {
    hide FinishBy, OnSchedule, PlanRank, BuildPlan;
    PendingInTime(cfg, PlanRank(cfg.task), delta, s, id);
    LayerFinishBound(cfg, caps, delta, Get(cfg.plan, id));
  }

  /** A task has nothing pending any more once three attempts per layer, their
      backoffs and fifteen clock readings have passed since its start. */
  lemma LayersWorstCase(cfg: Config, caps: Caps, delta: real, stored: map<Id, Content>, t: real, acts: seq<Action>)
    requires cfg.plan == BuildPlan(cfg.task) && Capped(cfg.timeouts, caps) && delta >= 0.0
    requires LegalTimely(cfg, Initial(cfg, stored, t), acts, delta)
    ensures Legal(cfg, Initial(cfg, stored, t), acts)
    ensures var s := Exec(cfg, Initial(cfg, stored, t), acts);
      s.now > t + 3.0 * (caps.ingestion + caps.chunks + caps.summary) + 15.0 + 15.0 * delta ==>
        forall id :: id in s.cells ==> !s.cells[id].pending
  {
    CappedIsNonNegative(cfg, caps);
    hide BuildPlan, FinishBy, OnSchedule, Capped, TimeoutsNonNegative, LegalTimely, Legal, Exec;
    var rank := PlanRank(cfg.task);
    BuildPlanWellFormed(cfg.task);
    var init := Initial(cfg, stored, t);
    InitialOnSchedule(cfg, rank, delta, stored, t);
    RunOnSchedule(cfg, rank, delta, init, acts);
    var s := Exec(cfg, init, acts);
    forall id | id in s.cells && s.cells[id].pending
      ensures s.now <= t + 3.0 * (caps.ingestion + caps.chunks + caps.summary) + 15.0 + 15.0 * delta
    {
      LayersPendingInTime(cfg, caps, delta, s, id);
    }
  }

  /** With the built-in timeouts every task, whatever it requests, has nothing
      pending any more 2265 seconds (and fifteen clock readings) after its start. */
  lemma DefaultWorstCase(cfg: Config, delta: real, stored: map<Id, Content>, t: real, acts: seq<Action>)
    requires cfg.plan == BuildPlan(cfg.task) && cfg.timeouts == map[] && delta >= 0.0
    requires LegalTimely(cfg, Initial(cfg, stored, t), acts, delta)
    ensures Legal(cfg, Initial(cfg, stored, t), acts)
    ensures var s := Exec(cfg, Initial(cfg, stored, t), acts);
      s.now > t + 2265.0 + 15.0 * delta ==> forall id :: id in s.cells ==> !s.cells[id].pending
  {
    LayersWorstCase(cfg, Caps(600.0, 90.0, 60.0), delta, stored, t, acts);
  }

  /** With a timeout configured for every agent, a subtask is resolved within three
      times its agent's timeout, the two backoffs and four clock readings of its first
      attempt, and a task within the sum over the layers. */
  lemma ConfiguredWorstCase(cfg: Config, caps: Caps, delta: real,
                            stored: map<Id, Content>, t: real, acts: seq<Action>, id: Id)
    requires cfg.plan == BuildPlan(cfg.task) && delta >= 0.0 && id in Ids(cfg.plan)
    requires cfg.timeouts.Keys == {Transcriber, Ocr, Summarizer, TestGenerator, Terminology, Recommender}
    requires 0.0 <= cfg.timeouts[Transcriber] <= caps.ingestion && 0.0 <= cfg.timeouts[Ocr] <= caps.ingestion
    requires 0.0 <= cfg.timeouts[Summarizer] <= caps.chunks && 0.0 <= cfg.timeouts[Terminology] <= caps.chunks
    requires 0.0 <= cfg.timeouts[TestGenerator] <= caps.summary && 0.0 <= cfg.timeouts[Recommender] <= caps.summary
    requires LegalTimely(cfg, Initial(cfg, stored, t), acts, delta)
    ensures Legal(cfg, Initial(cfg, stored, t), acts)
    ensures var s := Exec(cfg, Initial(cfg, stored, t), acts);
      && id in s.cells && Get(cfg.plan, id).agent in cfg.timeouts
      && (s.cells[id].pending && s.cells[id].published && Quiescent(cfg, s) ==>
            && s.cells[id].firstAttemptAt.Some?
            && s.now <= s.cells[id].firstAttemptAt.value + 3.0 * cfg.timeouts[Get(cfg.plan, id).agent] + 5.0 + 4.0 * delta)
      && (s.cells[id].pending ==>
            s.now <= t + 3.0 * (caps.ingestion + caps.chunks + caps.summary) + 15.0 + 15.0 * delta)
  {
    BuildPlanWellFormed(cfg.task);
    hide BuildPlan, FinishBy, OnSchedule, Exec, Legal, LegalTimely, WellFormed, Initial, Quiescent;
    assert Capped(cfg.timeouts, caps);
    LayersWorstCase(cfg, caps, delta, stored, t, acts);
    CappedIsNonNegative(cfg, caps);
    WorstCaseTime(cfg, PlanRank(cfg.task), delta, stored, t, acts, id);
  }
}
