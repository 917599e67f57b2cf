/** What every reachable dispatch state satisfies, whatever the replies. */
module Invariants {
  import opened Basics
  import opened Plans
  import opened Retry
  import opened Dispatch

  /** The bookkeeping of one subtask: pending or resolved but never both, timers
      only while pending and published, a live timer whenever an answer is
      awaited, and the retry budget. */
  predicate CellInv(c: Cell) {
    && (c.pending <==> c.result == Open)
    && (c.pending <==> c.resolvedAt.None?)
    && (c.deadline.Some? ==> c.pending && c.published)
    && (c.retryAt.Some? ==> c.pending && 1 <= c.retries)
    && (c.pending && c.published ==> c.deadline.Some? || c.retryAt.Some?)
    && c.retries <= RETRY_MAX
    && (c.result == Failure ==> c.failReason.Some?)
    && (c.firstAttemptAt.Some? <==> c.sent != [])
    && (c.pending ==> (c.published <==> c.sent != []))
    && |c.sent| + (if c.retryAt.Some? then 1 else 0) + (if c.pending && !c.published then 1 else 0) <= 1 + c.retries
    && c.routed <= c.retries + (if c.pending then 0 else 1)
  }

  ghost predicate Inv(cfg: Config, s: State) {
    && s.cells.Keys == Ids(cfg.plan)
    && s.startedAt <= s.now
    && forall id :: id in s.cells ==> CellInv(s.cells[id])
  }

  lemma InitialInv(cfg: Config, stored: map<Id, Content>, t: real)
    ensures Inv(cfg, Initial(cfg, stored, t))
  {
  }

  lemma StepInv(cfg: Config, s: State, a: Action)
    requires Inv(cfg, s) && Enabled(cfg, s, a)
    ensures Inv(cfg, Apply(cfg, s, a))
  {
    if !a.Sample? {
      assert CellInv(s.cells[a.id]);
      assert CellInv(NewCell(cfg, s, a));
    }
  }

  /** The invariant holds after every legal run. */
  lemma {:induction false} RunInv(cfg: Config, s: State, acts: seq<Action>)
    requires Inv(cfg, s) && Legal(cfg, s, acts)
    ensures Inv(cfg, Exec(cfg, s, acts))
    decreases |acts|
  {
    if acts != [] {
      StepInv(cfg, s, acts[0]);
      RunInv(cfg, Apply(cfg, s, acts[0]), acts[1..]);
    }
  }

  lemma ReachableInv(cfg: Config, stored: map<Id, Content>, t: real, acts: seq<Action>)
    requires Legal(cfg, Initial(cfg, stored, t), acts)
    ensures Inv(cfg, Exec(cfg, Initial(cfg, stored, t), acts))
  {
    InitialInv(cfg, stored, t);
    RunInv(cfg, Initial(cfg, stored, t), acts);
  }

  /** Results are write-once: after a subtask is resolved nothing about it ever
      changes again, neither by late replies nor by timers. */
  lemma {:induction false} ResolvedIsFrozen(cfg: Config, s: State, acts: seq<Action>, id: Id)
    requires Inv(cfg, s) && Legal(cfg, s, acts) && Resolved(s, id)
    ensures id in Exec(cfg, s, acts).cells && Exec(cfg, s, acts).cells[id] == s.cells[id]
    decreases |acts|
  {
    if acts != [] {
      assert CellInv(s.cells[id]);
      StepInv(cfg, s, acts[0]);
      ResolvedIsFrozen(cfg, Apply(cfg, s, acts[0]), acts[1..], id);
    }
  }

  /** In a quiescent state a pending subtask either has a timer that has not
      gone off yet, or is unsent and waits for a pending dependency. */
  lemma PendingWaits(cfg: Config, rank: map<Id, nat>, s: State, id: Id)
    requires WellFormed(cfg.plan, rank) && Inv(cfg, s) && Quiescent(cfg, s)
    requires id in s.cells && s.cells[id].pending
    ensures var c := s.cells[id];
      || (c.published && c.deadline.Some? && s.now <= c.deadline.value)
      || (c.published && c.retryAt.Some? && s.now < c.retryAt.value)
      || (!c.published && exists d :: d in Get(cfg.plan, id).dependsOn && d in s.cells && s.cells[d].pending)
  {
    var c, st := s.cells[id], Get(cfg.plan, id);
    assert CellInv(c);
    if !c.published {
      assert !Ready(s, st);
      var d :| d in st.dependsOn && !Resolved(s, d);
      assert d in Ids(cfg.plan) && CellInv(s.cells[d]);
    }
  }

  /** No deadlock: while anything is pending, some timer is running, so a later
      tick or a reply always makes progress. */
  lemma {:induction false} NoDeadlock(cfg: Config, rank: map<Id, nat>, s: State, id: Id) returns (live: Id)
    requires WellFormed(cfg.plan, rank) && Inv(cfg, s) && Quiescent(cfg, s)
    requires id in s.cells && s.cells[id].pending
    ensures live in s.cells && s.cells[live].pending && s.cells[live].published
    ensures s.cells[live].deadline.Some? || s.cells[live].retryAt.Some?
    ensures s.cells[live].deadline.Some? ==> s.now <= s.cells[live].deadline.value
    ensures s.cells[live].retryAt.Some? ==> s.now < s.cells[live].retryAt.value
    decreases if id in rank then rank[id] else 0
  {
    PendingWaits(cfg, rank, s, id);
    if s.cells[id].published {
      live := id;
      assert CellInv(s.cells[id]);
    } else {
      var d :| d in Get(cfg.plan, id).dependsOn && d in s.cells && s.cells[d].pending;
      live := NoDeadlock(cfg, rank, s, d);
    }
  }
}
