/** The dispatch protocol of one task as a state machine.

    A `State` keeps one `Cell` per subtask of the plan: what the coordinator's
    sets and dictionaries hold about that subtask, together with two logs
    (requests sent, replies routed) that the properties talk about.  Each
    `Action` is one indivisible effect of a handler in
    src/agents/coordinator.py; the methods of module Coordination are proved to
    perform exactly such actions. */
module Dispatch {
  import opened Basics
  import opened Plans
  import opened Payloads
  import opened Retry

  datatype Config = Config(task: Task, plan: Plan, timeouts: map<AgentName, real>)

  datatype Request = Request(subtaskId: Id, agent: AgentName, conversationId: string, content: Content, at: real)

  /** An entry of `results`: missing, None, or a content. */
  datatype Resolution = Open | Failure | Success(content: Content)

  datatype Cell = Cell(
    pending: bool,
    published: bool,
    result: Resolution,
    retries: nat,
    deadline: Option<real>,
    retryAt: Option<real>,
    firstAttemptAt: Option<real>,
    resolvedAt: Option<real>,
    failReason: Option<string>,
    sent: seq<Request>,
    routed: nat)

  datatype State = State(now: real, startedAt: real, cells: map<Id, Cell>, messagesExchanged: nat)

  datatype Action =
    | Inform(id: Id, content: Content)   // an inform reply is routed
    | Refuse(id: Id, reason: string)     // a refuse reply is routed
    | Send(id: Id)                       // a ready subtask is published
    | Skip(id: Id)                       // a subtask fails because of its upstreams
    | Expire(id: Id)                     // an attempt times out
    | Republish(id: Id)                  // a scheduled retry is published
    | Sample(t: real)                    // the clock is read again

  // ----- Initial states -----

  const FRESH_CELL: Cell := Cell(true, false, Open, 0, None, None, None, None, None, [], 0)

  function LoadedCell(content: Content, t: real): Cell {
    Cell(false, true, Success(content), 0, None, None, None, Some(t), None, [], 0)
  }

  /** The state `submit` (nothing stored) and `_resume` (results reloaded from
      the store) start from; stored results of other subtasks are ignored. */
  function Initial(cfg: Config, stored: map<Id, Content>, t: real): State {
    State(t, t, map id | id in Ids(cfg.plan) :: if id in stored then LoadedCell(stored[id], t) else FRESH_CELL, 0)
  }

  // ----- Effects on one cell -----

  /** `_fail_subtask`. */
  function Failed(c: Cell, now: real, reason: string): Cell {
    c.(pending := false, published := true, result := Failure, deadline := None, retryAt := None,
       resolvedAt := Some(now), failReason := Some(reason))
  }

  /** `_schedule_retry_or_fail`. */
  function RetriedOrFailed(c: Cell, now: real, reason: string): Cell {
    if c.retries >= RETRY_MAX then Failed(c, now, reason)
    else c.(retries := c.retries + 1, retryAt := Some(now + BACKOFF_SECONDS[c.retries]), failReason := Some(reason))
  }

  /** `_publish`. */
  function Published(c: Cell, now: real, timeout: real, request: Request): Cell {
    c.(published := true, deadline := Some(now + timeout),
       firstAttemptAt := if c.firstAttemptAt.Some? then c.firstAttemptAt else Some(now),
       sent := c.sent + [request])
  }

  /** The common head of `_route_reply`: the reply is counted, the attempt's deadline dropped. */
  function Counted(c: Cell): Cell {
    c.(deadline := None, routed := c.routed + 1)
  }

  function Informed(c: Cell, now: real, content: Content): Cell {
    Counted(c).(result := Success(content), resolvedAt := Some(now), retryAt := None, pending := false)
  }

  // ----- Requests -----

  /** The `results` dictionary the cells stand for. */
  function ResultsOf(s: State): Results {
    map id | id in s.cells && s.cells[id].result != Open ::
      if s.cells[id].result.Success? then Some(s.cells[id].result.content) else None
  }

  function ConversationId(cfg: Config, st: Subtask): string {
    "conv-" + cfg.task.id + "-" + OperationValue(st.operation)
  }

  function RequestFor(cfg: Config, s: State, st: Subtask): Request {
    Request(st.id, st.agent, ConversationId(cfg, st), PayloadFor(st, cfg.task, ResultsOf(s)), s.now)
  }

  // ----- Guards -----

  predicate Resolved(s: State, id: Id) {
    id in s.cells && s.cells[id].result != Open
  }

  predicate Succeeded(s: State, id: Id) {
    id in s.cells && s.cells[id].result.Success?
  }

  predicate DepsResolved(s: State, st: Subtask) {
    forall d :: d in st.dependsOn ==> Resolved(s, d)
  }

  /** The join policy over resolved dependencies. */
  predicate JoinMet(s: State, st: Subtask) {
    && (st.dependsOn != [] ==> exists d :: d in st.dependsOn && Succeeded(s, d))
    && (st.join == All ==> forall d :: d in st.dependsOn ==> Succeeded(s, d))
  }

  /** Pending, not yet published, and nothing left to wait for. */
  predicate Ready(s: State, st: Subtask) {
    st.id in s.cells && s.cells[st.id].pending && !s.cells[st.id].published && DepsResolved(s, st)
  }

  predicate Expired(c: Cell, now: real) {
    c.deadline.Some? && now > c.deadline.value
  }

  predicate Due(c: Cell, now: real) {
    c.retryAt.Some? && now >= c.retryAt.value
  }

  /** Nothing ready and unsent, no expired deadline, no due retry. */
  ghost predicate Quiescent(cfg: Config, s: State) {
    && (forall st :: st in cfg.plan.subtasks ==> !Ready(s, st))
    && (forall id :: id in s.cells ==> !Expired(s.cells[id], s.now) && !Due(s.cells[id], s.now))
  }

  ghost predicate HasPending(s: State) {
    exists id :: id in s.cells && s.cells[id].pending
  }

  function SkipReason(s: State, st: Subtask): string {
    if forall d :: d in st.dependsOn ==> !Succeeded(s, d) then "skipped: all upstream failed"
    else "skipped: upstream failed"
  }

  ghost predicate Enabled(cfg: Config, s: State, a: Action) {
    if a.Sample? then a.t >= s.now && Quiescent(cfg, s)
    else
      && a.id in s.cells && a.id in Ids(cfg.plan)
      && var c, st := s.cells[a.id], Get(cfg.plan, a.id);
         match a
         case Inform(_, _) => c.pending
         case Refuse(_, _) => c.pending
         case Send(_) => Ready(s, st) && JoinMet(s, st)
         case Skip(_) => Ready(s, st) && !JoinMet(s, st)
         case Expire(_) => Expired(c, s.now)
         case Republish(_) => Due(c, s.now)
  }

  /** What the action makes of the cell it names. */
  ghost function NewCell(cfg: Config, s: State, a: Action): Cell
    requires !a.Sample? && a.id in s.cells && a.id in Ids(cfg.plan)
  {
    var c, st := s.cells[a.id], Get(cfg.plan, a.id);
    match a
    case Inform(_, content) => Informed(c, s.now, content)
    case Refuse(_, reason) => RetriedOrFailed(Counted(c), s.now, "refuse: " + reason)
    case Send(_) => Published(c, s.now, TimeoutFor(cfg.timeouts, st.agent), RequestFor(cfg, s, st))
    case Skip(_) => Failed(c, s.now, SkipReason(s, st))
    case Expire(_) => RetriedOrFailed(c.(deadline := None), s.now, "timeout")
    case Republish(_) =>
      Published(c.(retryAt := None), s.now, TimeoutFor(cfg.timeouts, st.agent), RequestFor(cfg, s, st))
  }

  /** Requests and routed replies are counted. */
  function MessagesOf(a: Action): nat {
    if a.Inform? || a.Refuse? || a.Send? || a.Republish? then 1 else 0
  }

  ghost function Apply(cfg: Config, s: State, a: Action): State
    requires Enabled(cfg, s, a)
  {
    if a.Sample? then s.(now := a.t)
    else s.(cells := s.cells[a.id := NewCell(cfg, s, a)], messagesExchanged := s.messagesExchanged + MessagesOf(a))
  }

  // ----- Runs -----

  /** Every action of the list is enabled when its turn comes. */
  ghost predicate Legal(cfg: Config, s: State, acts: seq<Action>)
    decreases |acts|
  {
    acts == [] || (Enabled(cfg, s, acts[0]) && Legal(cfg, Apply(cfg, s, acts[0]), acts[1..]))
  }

  ghost function Exec(cfg: Config, s: State, acts: seq<Action>): State
    requires Legal(cfg, s, acts)
    decreases |acts|
  {
    if acts == [] then s else Exec(cfg, Apply(cfg, s, acts[0]), acts[1..])
  }

  lemma {:induction false} LegalConcat(cfg: Config, s: State, a: seq<Action>, b: seq<Action>)
    requires Legal(cfg, s, a)
    ensures Legal(cfg, s, a + b) <==> Legal(cfg, Exec(cfg, s, a), b)
    ensures Legal(cfg, s, a + b) ==> Exec(cfg, s, a + b) == Exec(cfg, Exec(cfg, s, a), b)
    decreases |a|
  {
    if a == [] {
      assert a + b == b;
    } else {
      assert (a + b)[1..] == a[1..] + b;
      LegalConcat(cfg, Apply(cfg, s, a[0]), a[1..], b);
    }
  }

  lemma LegalExtend(cfg: Config, s: State, acts: seq<Action>, a: Action)
    requires Legal(cfg, s, acts) && Enabled(cfg, Exec(cfg, s, acts), a)
    ensures Legal(cfg, s, acts + [a])
    ensures Exec(cfg, s, acts + [a]) == Apply(cfg, Exec(cfg, s, acts), a)
  {
    var t := Exec(cfg, s, acts);
    assert [a][1..] == [];
    assert Legal(cfg, Apply(cfg, t, a), [a][1..]);
    LegalConcat(cfg, s, acts, [a]);
  }
}
