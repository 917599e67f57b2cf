/** The attempts of a subtask: when requests go out, how long each may take, and
    why a subtask fails in the end. */
module Attempts {
  import opened Basics
  import opened Plans
  import opened Payloads
  import opened Retry
  import opened Dispatch
  import opened Invariants
  import opened Confluence

  /** The running deadline is the moment of the last request plus the time
      configured for the agent, or the built-in time where none is configured. */
  predicate DeadlineFollows(timeouts: map<AgentName, real>, agent: AgentName, c: Cell) {
    c.deadline.Some? ==> c.sent != [] && Lasts(timeouts, agent, c.deadline.value - c.sent[|c.sent| - 1].at)
  }

  /** At most three requests, none before the one before it; the first attempt
      is that of the first request. */
  predicate AskedInOrder(c: Cell, now: real) {
    && |c.sent| <= 3
    && (c.firstAttemptAt.Some? ==> c.sent != [] && c.firstAttemptAt.value == c.sent[0].at)
    && (c.sent != [] ==> c.sent[|c.sent| - 1].at <= now)
    && forall i, j :: 0 <= i < j < |c.sent| ==> c.sent[i].at <= c.sent[j].at
  }

  /** Every request names the subtask and goes to its agent. */
  predicate Addressed(cfg: Config, st: Subtask, c: Cell) {
    forall r :: r in c.sent ==>
      r.subtaskId == st.id && r.agent == st.agent && r.conversationId == "conv-" + cfg.task.id + "-" + OperationValue(st.operation)
  }

  ghost predicate Attempted(cfg: Config, s: State) {
    forall id :: id in s.cells && id in Ids(cfg.plan) ==>
      && DeadlineFollows(cfg.timeouts, Get(cfg.plan, id).agent, s.cells[id])
      && AskedInOrder(s.cells[id], s.now) && Addressed(cfg, Get(cfg.plan, id), s.cells[id])
  }

  lemma StepAttempted(cfg: Config, s: State, a: Action)
    requires Inv(cfg, s) && Attempted(cfg, s) && Enabled(cfg, s, a)
    ensures Attempted(cfg, Apply(cfg, s, a))
  {
    if !a.Sample? {
      CellAttempted(cfg, s, a);
    }
  }

  lemma CellAttempted(cfg: Config, s: State, a: Action)
    requires Inv(cfg, s) && Attempted(cfg, s) && Enabled(cfg, s, a) && !a.Sample?
    ensures var c, st := NewCell(cfg, s, a), Get(cfg.plan, a.id);
      DeadlineFollows(cfg.timeouts, st.agent, c) && AskedInOrder(c, s.now) && Addressed(cfg, st, c)
  {
    var c, st := s.cells[a.id], Get(cfg.plan, a.id);
    assert CellInv(c);
    hide AskedInOrder, DeadlineFollows, Addressed, Inv, Attempted, CellInv, TimeoutFor, PayloadFor, ResultsOf;
    match a
    case Inform(_, content) => NothingSent(cfg, st, c, s.now, NewCell(cfg, s, a));
    case Refuse(_, reason) => Retried(cfg, st, c, s.now, "refuse: " + reason, NewCell(cfg, s, a));
    case Send(_) => OneMoreSent(cfg, st, c, s.now, RequestFor(cfg, s, st));
    case Skip(_) => NothingSent(cfg, st, c, s.now, NewCell(cfg, s, a));
    case Expire(_) => Retried(cfg, st, c, s.now, "timeout", NewCell(cfg, s, a));
    case Republish(_) => OneMoreSent(cfg, st, c, s.now, RequestFor(cfg, s, st));
  }

  lemma NothingSent(cfg: Config, st: Subtask, c: Cell, now: real, d: Cell)
    requires AskedInOrder(c, now) && Addressed(cfg, st, c)
    requires d.sent == c.sent && d.firstAttemptAt == c.firstAttemptAt && d.deadline == None && d.retryAt == None
    ensures DeadlineFollows(cfg.timeouts, st.agent, d) && AskedInOrder(d, now) && Addressed(cfg, st, d)
  {
  }

  lemma Retried(cfg: Config, st: Subtask, c: Cell, now: real, reason: string, d: Cell)
    requires CellInv(c) && AskedInOrder(c, now) && Addressed(cfg, st, c)
    requires d == RetriedOrFailed(Counted(c), now, reason) || d == RetriedOrFailed(c.(deadline := None), now, reason)
    ensures DeadlineFollows(cfg.timeouts, st.agent, d) && AskedInOrder(d, now) && Addressed(cfg, st, d)
  {
  }

  /** One more request: the first, or one that was due. */
  lemma OneMoreSent(cfg: Config, st: Subtask, c: Cell, now: real, r: Request)
    requires CellInv(c) && AskedInOrder(c, now) && Addressed(cfg, st, c) && c.pending
    requires !c.published || Due(c, now)
    requires r == Request(st.id, st.agent, ConversationId(cfg, st), r.content, now)
    ensures var d := Published(if Due(c, now) then c.(retryAt := None) else c, now, TimeoutFor(cfg.timeouts, st.agent), r);
      DeadlineFollows(cfg.timeouts, st.agent, d) && AskedInOrder(d, now) && Addressed(cfg, st, d)
  {
  }

  lemma {:induction false} RunAttempted(cfg: Config, s: State, acts: seq<Action>)
    requires Inv(cfg, s) && Attempted(cfg, s) && Legal(cfg, s, acts)
    ensures Attempted(cfg, Exec(cfg, s, acts))
    decreases |acts|
  {
    if acts != [] {
      StepInv(cfg, s, acts[0]);
      StepAttempted(cfg, s, acts[0]);
      RunAttempted(cfg, Apply(cfg, s, acts[0]), acts[1..]);
    }
  }

  /** In every reachable state deadlines follow the configuration and attempts keep
      their distance, whatever the replies. */
  lemma ReachableAttempts(cfg: Config, stored: map<Id, Content>, t: real, acts: seq<Action>, id: Id)
    requires Legal(cfg, Initial(cfg, stored, t), acts) && id in Ids(cfg.plan)
    ensures var s := Exec(cfg, Initial(cfg, stored, t), acts);
      && id in s.cells && DeadlineFollows(cfg.timeouts, Get(cfg.plan, id).agent, s.cells[id])
      && AskedInOrder(s.cells[id], s.now) && Addressed(cfg, Get(cfg.plan, id), s.cells[id])
  {
    InitialInv(cfg, stored, t);
    assert Attempted(cfg, Initial(cfg, stored, t));
    hide Initial, Legal, Exec, DeadlineFollows, AskedInOrder, Addressed, CellInv;
    ReachableInv(cfg, stored, t, acts);
    RunAttempted(cfg, Initial(cfg, stored, t), acts);
  }

  // ----- The distance of attempts -----

  /** The second request comes at least one second after the first and the third
      at least four seconds after the second. */
  predicate Spaced(c: Cell) {
    && (|c.sent| >= 2 ==> c.sent[1].at >= c.sent[0].at + 1.0)
    && (|c.sent| >= 3 ==> c.sent[2].at >= c.sent[1].at + 4.0)
    && (c.sent != [] && c.retryAt.Some? ==>
          c.retryAt.value >= c.sent[|c.sent| - 1].at + (if c.retries == 1 then 1.0 else 4.0))
  }

  ghost predicate AllSpaced(s: State) {
    forall id :: id in s.cells ==> Spaced(s.cells[id])
  }

  lemma StepSpaced(cfg: Config, s: State, a: Action)
    requires Inv(cfg, s) && Attempted(cfg, s) && AllSpaced(s) && Orderly(s) && Enabled(cfg, s, a)
    ensures AllSpaced(Apply(cfg, s, a))
  {
    if !a.Sample? {
      CellSpaced(cfg, s, a);
    }
  }

  lemma CellSpaced(cfg: Config, s: State, a: Action)
    requires Inv(cfg, s) && Attempted(cfg, s) && AllSpaced(s) && Orderly(s) && Enabled(cfg, s, a) && !a.Sample?
    ensures Spaced(NewCell(cfg, s, a))
  {
    var c, st := s.cells[a.id], Get(cfg.plan, a.id);
    assert CellInv(c) && Spaced(c) && AskedInOrder(c, s.now);
    hide Inv, CellInv, Spaced, AskedInOrder, Attempted, AllSpaced, PayloadFor, ResultsOf, TimeoutFor;
    match a
    case Inform(_, content) => SpacedWhenResolved(c, NewCell(cfg, s, a));
    case Refuse(_, reason) => SpacedWhenRetried(c, s.now, "refuse: " + reason, NewCell(cfg, s, a));
    case Send(_) => SpacedWhenSent(c, s.now, TimeoutFor(cfg.timeouts, st.agent), RequestFor(cfg, s, st));
    case Skip(_) => SpacedWhenResolved(c, NewCell(cfg, s, a));
    case Expire(_) => SpacedWhenRetried(c, s.now, "timeout", NewCell(cfg, s, a));
    case Republish(_) => SpacedWhenSent(c, s.now, TimeoutFor(cfg.timeouts, st.agent), RequestFor(cfg, s, st));
  }

  lemma SpacedWhenResolved(c: Cell, d: Cell)
    requires Spaced(c) && d.sent == c.sent && d.retryAt == None
    ensures Spaced(d)
  {
  }

  lemma SpacedWhenRetried(c: Cell, now: real, reason: string, d: Cell)
    requires Spaced(c) && AskedInOrder(c, now)
    requires d == RetriedOrFailed(Counted(c), now, reason) || d == RetriedOrFailed(c.(deadline := None), now, reason)
    ensures Spaced(d)
  {
  }

  lemma SpacedWhenSent(c: Cell, now: real, timeout: real, r: Request)
    requires CellInv(c) && Spaced(c) && AskedInOrder(c, now) && c.pending && r.at == now
    requires if c.retryAt.Some? then Due(c, now) else !c.published
    ensures Spaced(Published(c.(retryAt := None), now, timeout, r))
  {
  }

  lemma {:induction false} RunSpaced(cfg: Config, s: State, acts: seq<Action>)
    requires Inv(cfg, s) && Attempted(cfg, s) && AllSpaced(s) && Orderly(s) && LegalInTurn(cfg, s, acts)
    ensures Legal(cfg, s, acts) && AllSpaced(Exec(cfg, s, acts))
    decreases |acts|
  {
    if acts != [] {
      var t := Apply(cfg, s, acts[0]);
      StepInv(cfg, s, acts[0]);
      StepAttempted(cfg, s, acts[0]);
      StepSpaced(cfg, s, acts[0]);
      StepOrderly(cfg, s, acts[0]);
      RunSpaced(cfg, t, acts[1..]);
    }
  }

  lemma StepOrderly(cfg: Config, s: State, a: Action)
    requires Inv(cfg, s) && Orderly(s) && Enabled(cfg, s, a) && InTurn(s, a)
    ensures Orderly(Apply(cfg, s, a))
  {
    var acts := [a];
    assert acts[1..] == [];
    assert Exec(cfg, s, acts) == Exec(cfg, Apply(cfg, s, a), []) == Apply(cfg, s, a);
    assert LegalInTurn(cfg, Apply(cfg, s, a), []);
    StaysOrderly(cfg, s, acts);
  }

  /** While every refuse answers a request, a subtask is asked at most three times,
      with one second and then four seconds between at least. */
  lemma AttemptsKeepDistance(cfg: Config, stored: map<Id, Content>, t: real, acts: seq<Action>, id: Id)
    requires LegalInTurn(cfg, Initial(cfg, stored, t), acts) && id in Ids(cfg.plan)
    ensures Legal(cfg, Initial(cfg, stored, t), acts)
    ensures var s := Exec(cfg, Initial(cfg, stored, t), acts);
      id in s.cells && |s.cells[id].sent| <= 3 && Spaced(s.cells[id])
  {
    InitialInv(cfg, stored, t);
    RunSpaced(cfg, Initial(cfg, stored, t), acts);
    ReachableAttempts(cfg, stored, t, acts, id);
  }

  // ----- Why subtasks fail -----

  /** A recorded failure is the third failed attempt, or follows from the upstreams. */
  predicate ReasonHolds(s: State, st: Subtask) {
    st.id in s.cells && s.cells[st.id].result == Failure && s.cells[st.id].failReason.Some? ==>
      var c, reason := s.cells[st.id], s.cells[st.id].failReason.value;
      || (c.retries == 2 && (reason == "timeout" || "refuse: " <= reason))
      || (reason == "skipped: all upstream failed" && st.dependsOn != [] &&
          forall d :: d in st.dependsOn ==> d in s.cells && s.cells[d].result == Failure)
      || (reason == "skipped: upstream failed" && st.join == All &&
          (forall d :: d in st.dependsOn ==> d in s.cells && s.cells[d].result != Open) &&
          (exists d :: d in st.dependsOn && s.cells[d].result.Success?) &&
          (exists d :: d in st.dependsOn && s.cells[d].result == Failure))
  }

  ghost predicate ReasonsHold(cfg: Config, s: State) {
    forall id :: id in Ids(cfg.plan) ==> ReasonHolds(s, Get(cfg.plan, id))
  }

  lemma StepReasons(cfg: Config, s: State, a: Action, id: Id)
    requires Inv(cfg, s) && ReasonsHold(cfg, s) && Enabled(cfg, s, a) && id in Ids(cfg.plan)
    ensures ReasonHolds(Apply(cfg, s, a), Get(cfg.plan, id))
  {
    var st, t := Get(cfg.plan, id), Apply(cfg, s, a);
    assert ReasonHolds(s, st) && CellInv(s.cells[id]);
    if !a.Sample? && a.id == id {
      NewReason(cfg, s, a, id);
    } else if !a.Sample? {
      assert CellInv(s.cells[a.id]) && s.cells[a.id].result == Open;
    }
  }

  lemma NewReason(cfg: Config, s: State, a: Action, id: Id)
    requires Inv(cfg, s) && Enabled(cfg, s, a) && !a.Sample? && a.id == id && id in Ids(cfg.plan)
    ensures ReasonHolds(Apply(cfg, s, a), Get(cfg.plan, id))
  {
    var st, t := Get(cfg.plan, id), Apply(cfg, s, a);
    assert CellInv(s.cells[id]);
    if a.Skip? {
      assert forall d :: d in st.dependsOn ==> Resolved(s, d) && d != id;
    }
  }

  lemma {:induction false} RunReasons(cfg: Config, s: State, acts: seq<Action>)
    requires Inv(cfg, s) && ReasonsHold(cfg, s) && Legal(cfg, s, acts)
    ensures ReasonsHold(cfg, Exec(cfg, s, acts))
    decreases |acts|
  {
    hide ReasonHolds;
    if acts != [] {
      StepInv(cfg, s, acts[0]);
      forall id | id in Ids(cfg.plan) ensures ReasonHolds(Apply(cfg, s, acts[0]), Get(cfg.plan, id)) {
        StepReasons(cfg, s, acts[0], id);
      }
      RunReasons(cfg, Apply(cfg, s, acts[0]), acts[1..]);
    }
  }

  /** Recorded reasons tell the truth in every reachable state. */
  lemma ReachableReasons(cfg: Config, stored: map<Id, Content>, t: real, acts: seq<Action>, id: Id)
    requires Legal(cfg, Initial(cfg, stored, t), acts) && id in Ids(cfg.plan)
    ensures var s := Exec(cfg, Initial(cfg, stored, t), acts);
      && id in s.cells && (s.cells[id].result == Failure ==> s.cells[id].failReason.Some?)
      && ReasonHolds(s, Get(cfg.plan, id))
  {
    var init := Initial(cfg, stored, t);
    InitialInv(cfg, stored, t);
    assert ReasonsHold(cfg, init);
    hide ReasonHolds, Exec, Legal, Initial;
    ReachableInv(cfg, stored, t, acts);
    RunReasons(cfg, init, acts);
  }
}
