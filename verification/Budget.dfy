/** Bounded effort: how often a subtask may be sent, answered and retried. */
module Budget {
  import opened Basics
  import opened Sums
  import opened Plans
  import opened Retry
  import opened Dispatch
  import opened Invariants

  /** What a pending subtask can still cost. */
  function CellMeasure(c: Cell): nat
    requires c.retries <= RETRY_MAX
  {
    if !c.pending then 0
    else 1 + 3 * (RETRY_MAX - c.retries)
           + (if c.deadline.Some? then 1 else 0)
           + (if c.retryAt.Some? then 2 else 0)
           + (if !c.published then 2 else 0)
  }

  function CellCost(s: State, id: Id): nat {
    if id in s.cells && s.cells[id].retries <= RETRY_MAX then CellMeasure(s.cells[id]) else 0
  }

  ghost function Measure(s: State): nat {
    Sum(s.cells.Keys, (id: Id) => CellCost(s, id))
  }

  /** Every reply, expiry, send and failure strictly consumes the measure;
      reading the clock leaves it alone. */
  lemma StepMeasure(cfg: Config, s: State, a: Action)
    requires Inv(cfg, s) && Enabled(cfg, s, a)
    ensures a.Sample? ==> Measure(Apply(cfg, s, a)) == Measure(s)
    ensures !a.Sample? ==> Measure(Apply(cfg, s, a)) < Measure(s)
  {
    var t := Apply(cfg, s, a);
    StepInv(cfg, s, a);
    var f, g := (id: Id) => CellCost(s, id), (id: Id) => CellCost(t, id);
    if a.Sample? {
      SumSame(s.cells.Keys, f, g);
    } else {
      assert CellInv(s.cells[a.id]);
      assert CellMeasure(NewCell(cfg, s, a)) < CellMeasure(s.cells[a.id]);
      assert t.cells.Keys == s.cells.Keys;
      SumChange(s.cells.Keys, f, g, a.id);
    }
  }

  /** The actions of a run other than clock readings. */
  function Effects(acts: seq<Action>): nat {
    if acts == [] then 0 else (if acts[0].Sample? then 0 else 1) + Effects(acts[1..])
  }

  lemma {:induction false} RunMeasure(cfg: Config, s: State, acts: seq<Action>)
    requires Inv(cfg, s) && Legal(cfg, s, acts)
    ensures Effects(acts) + Measure(Exec(cfg, s, acts)) <= Measure(s)
    decreases |acts|
  {
    if acts != [] {
      StepMeasure(cfg, s, acts[0]);
      StepInv(cfg, s, acts[0]);
      RunMeasure(cfg, Apply(cfg, s, acts[0]), acts[1..]);
    }
  }

  /** Bounded effort over every run, however replies, timers and clock readings
      interleave: at most nine effects per subtask of the plan; and for each
      subtask at most one request more than retries, hence at most three
      requests and at most three routed replies. */
  lemma BoundedEffort(cfg: Config, stored: map<Id, Content>, t: real, acts: seq<Action>)
    requires Legal(cfg, Initial(cfg, stored, t), acts)
    ensures Effects(acts) <= 9 * |Ids(cfg.plan)|
    ensures var s := Exec(cfg, Initial(cfg, stored, t), acts);
      forall id :: id in s.cells ==>
        && |s.cells[id].sent| <= 1 + s.cells[id].retries <= 3
        && s.cells[id].routed <= 3
  {
    var init := Initial(cfg, stored, t);
    ReachableInv(cfg, stored, t, acts);
    InitialInv(cfg, stored, t);
    RunMeasure(cfg, init, acts);
    SumBound(init.cells.Keys, (id: Id) => CellCost(init, id), 9);
    var s := Exec(cfg, init, acts);
    forall id | id in s.cells
      ensures |s.cells[id].sent| <= 1 + s.cells[id].retries <= 3 && s.cells[id].routed <= 3
    {
      assert CellInv(s.cells[id]);
    }
  }

  // ----- messages_exchanged -----

  function CellMessages(s: State, id: Id): nat {
    if id in s.cells then |s.cells[id].sent| + s.cells[id].routed else 0
  }

  /** The counter reported with a result is the number of requests sent plus
      replies routed. */
  ghost predicate MessagesCounted(s: State) {
    s.messagesExchanged == Sum(s.cells.Keys, (id: Id) => CellMessages(s, id))
  }

  lemma InitialMessages(cfg: Config, stored: map<Id, Content>, t: real)
    ensures MessagesCounted(Initial(cfg, stored, t))
  {
    var s := Initial(cfg, stored, t);
    SumBound(s.cells.Keys, (id: Id) => CellMessages(s, id), 0);
  }

  lemma {:induction false} RunMessages(cfg: Config, s: State, acts: seq<Action>)
    requires Legal(cfg, s, acts) && MessagesCounted(s)
    ensures MessagesCounted(Exec(cfg, s, acts))
    decreases |acts|
  {
    if acts != [] {
      var a := acts[0];
      var t := Apply(cfg, s, a);
      var f, g := (id: Id) => CellMessages(s, id), (id: Id) => CellMessages(t, id);
      if a.Sample? {
        SumSame(s.cells.Keys, f, g);
      } else {
        assert t.cells.Keys == s.cells.Keys;
        SumChange(s.cells.Keys, f, g, a.id);
      }
      RunMessages(cfg, t, acts[1..]);
    }
  }

  /** The counter is right in every reachable state. */
  lemma ReachableMessages(cfg: Config, stored: map<Id, Content>, t: real, acts: seq<Action>)
    requires Legal(cfg, Initial(cfg, stored, t), acts)
    ensures MessagesCounted(Exec(cfg, Initial(cfg, stored, t), acts))
  {
    InitialMessages(cfg, stored, t);
    RunMessages(cfg, Initial(cfg, stored, t), acts);
  }
}
