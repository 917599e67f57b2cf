/** The outcome of a task does not depend on scheduling, lateness or crashes. */
module Outcome {
  import opened Basics
  import opened Plans
  import opened Retry
  import opened Dispatch
  import opened Invariants
  import opened Verdict

  /** A task across coordinator restarts: the current state, and what was ever
      requested and ever answered with an inform, in this run or before. */
  datatype World = World(s: State, everSent: set<Id>, everInformed: set<Id>)

  /** A dispatch action, or a crash followed by a recovery with some of the
      results reloaded (possibly altered by the store) at some clock reading. */
  datatype Event = Act(a: Action) | Crash(stored: map<Id, Content>, t: real)

  ghost predicate Possible(cfg: Config, w: World, e: Event) {
    e.Act? ==> Enabled(cfg, w.s, e.a)
  }

  ghost function Next(cfg: Config, w: World, e: Event): World
    requires Possible(cfg, w, e)
  {
    match e
    case Crash(stored, t) => w.(s := Initial(cfg, stored, t))
    case Act(a) =>
      World(Apply(cfg, w.s, a),
            if a.Send? || a.Republish? then w.everSent + {a.id} else w.everSent,
            if a.Inform? then w.everInformed + {a.id} else w.everInformed)
  }

  predicate Exhausting(s: State, id: Id) {
    id in s.cells && s.cells[id].retries >= RETRY_MAX
  }

  /** The environment with a fixed set of working subtasks: replies answer
      requests; only working subtasks inform; only the others use up their
      retries; and the store returns only what was once informed. */
  predicate Environment(cfg: Config, good: set<Id>, w: World, e: Event) {
    match e
    case Crash(stored, _) => forall id :: id in stored && id in Ids(cfg.plan) ==> id in w.everInformed
    case Act(Inform(id, _)) => id in w.everSent && id in good
    case Act(Refuse(id, _)) => id in w.everSent && (Exhausting(w.s, id) ==> id !in good)
    case Act(Expire(id)) => Exhausting(w.s, id) ==> id !in good
    case Act(_) => true
  }

  /** A history of one task: any interleaving of replies, timers, clock readings
      and crashes that the environment allows. */
  ghost predicate History(cfg: Config, good: set<Id>, w: World, events: seq<Event>)
    decreases |events|
  {
    events == [] ||
    (Possible(cfg, w, events[0]) && Environment(cfg, good, w, events[0]) &&
     History(cfg, good, Next(cfg, w, events[0]), events[1..]))
  }

  ghost function After(cfg: Config, good: set<Id>, w: World, events: seq<Event>): World
    requires History(cfg, good, w, events)
    decreases |events|
  {
    if events == [] then w else After(cfg, good, Next(cfg, w, events[0]), events[1..])
  }

  // ----- The schedule-free meaning of a plan -----

  /** The subtask works and its join condition holds over what its dependencies yield. */
  ghost predicate Yields(plan: Plan, rank: map<Id, nat>, good: set<Id>, id: Id)
    requires WellFormed(plan, rank) && id in Ids(plan)
    decreases rank[id], 1
  {
    id in good && JoinYields(plan, rank, good, id)
  }

  ghost predicate JoinYields(plan: Plan, rank: map<Id, nat>, good: set<Id>, id: Id)
    requires WellFormed(plan, rank) && id in Ids(plan)
    decreases rank[id], 0
  {
    var st := Get(plan, id);
    && (st.dependsOn != [] ==> exists d :: d in st.dependsOn && Yields(plan, rank, good, d))
    && (st.join == All ==> forall d :: d in st.dependsOn ==> Yields(plan, rank, good, d))
  }

  // ----- Agreement of every history with that meaning -----

  ghost predicate CellAgrees(cfg: Config, rank: map<Id, nat>, good: set<Id>, w: World, id: Id)
    requires WellFormed(cfg.plan, rank) && id in Ids(cfg.plan) && id in w.s.cells
  {
    var c := w.s.cells[id];
    && (c.result.Success? ==> Yields(cfg.plan, rank, good, id))
    && (c.result.Failure? ==> !Yields(cfg.plan, rank, good, id))
    && (id in w.everSent ==> JoinYields(cfg.plan, rank, good, id))
    && (id in w.everInformed ==> Yields(cfg.plan, rank, good, id))
    && (c.deadline.Some? || c.retryAt.Some? ==> id in w.everSent)
  }

  ghost predicate Agrees(cfg: Config, rank: map<Id, nat>, good: set<Id>, w: World)
    requires WellFormed(cfg.plan, rank)
  {
    && Inv(cfg, w.s)
    && forall id :: id in w.s.cells ==> CellAgrees(cfg, rank, good, w, id)
  }

  /** Over resolved dependencies the join condition reads off the meaning. */
  lemma JoinAgrees(cfg: Config, rank: map<Id, nat>, good: set<Id>, w: World, id: Id)
    requires WellFormed(cfg.plan, rank) && Agrees(cfg, rank, good, w) && id in w.s.cells
    requires DepsResolved(w.s, Get(cfg.plan, id))
    ensures JoinMet(w.s, Get(cfg.plan, id)) <==> JoinYields(cfg.plan, rank, good, id)
  {
    var st := Get(cfg.plan, id);
    forall d | d in st.dependsOn ensures Succeeded(w.s, d) <==> Yields(cfg.plan, rank, good, d) {
      assert Resolved(w.s, d) && CellAgrees(cfg, rank, good, w, d);
    }
  }

  lemma ActedCellAgrees(cfg: Config, rank: map<Id, nat>, good: set<Id>, w: World, a: Action)
    requires WellFormed(cfg.plan, rank) && Agrees(cfg, rank, good, w)
    requires Possible(cfg, w, Act(a)) && Environment(cfg, good, w, Act(a)) && !a.Sample?
    ensures CellAgrees(cfg, rank, good, Next(cfg, w, Act(a)), a.id)
  {
    var c := w.s.cells[a.id];
    assert CellInv(c) && CellAgrees(cfg, rank, good, w, a.id);
    if a.Send? || a.Skip? {
      JoinAgrees(cfg, rank, good, w, a.id);
    }
  }

  lemma CrashAgrees(cfg: Config, rank: map<Id, nat>, good: set<Id>, w: World, e: Event)
    requires WellFormed(cfg.plan, rank) && Agrees(cfg, rank, good, w)
    requires e.Crash? && Environment(cfg, good, w, e)
    ensures Agrees(cfg, rank, good, Next(cfg, w, e))
  {
    var w' := Next(cfg, w, e);
    InitialInv(cfg, e.stored, e.t);
    forall id | id in w'.s.cells ensures CellAgrees(cfg, rank, good, w', id) {
      assert CellAgrees(cfg, rank, good, w, id);
    }
  }

  lemma OtherCellAgrees(cfg: Config, rank: map<Id, nat>, good: set<Id>, w: World, a: Action, id: Id)
    requires WellFormed(cfg.plan, rank) && Agrees(cfg, rank, good, w)
    requires Possible(cfg, w, Act(a)) && id in w.s.cells && (a.Sample? || a.id != id)
    ensures CellAgrees(cfg, rank, good, Next(cfg, w, Act(a)), id)
  {
    assert CellAgrees(cfg, rank, good, w, id);
  }

  lemma NextAgrees(cfg: Config, rank: map<Id, nat>, good: set<Id>, w: World, e: Event)
    requires WellFormed(cfg.plan, rank) && Agrees(cfg, rank, good, w)
    requires Possible(cfg, w, e) && Environment(cfg, good, w, e)
    ensures Agrees(cfg, rank, good, Next(cfg, w, e))
  {
    match e
    case Crash(_, _) => CrashAgrees(cfg, rank, good, w, e);
    case Act(a) =>
      StepInv(cfg, w.s, a);
      var w' := Next(cfg, w, e);
      forall id | id in w'.s.cells ensures CellAgrees(cfg, rank, good, w', id) {
        if !a.Sample? && a.id == id {
          ActedCellAgrees(cfg, rank, good, w, a);
        } else {
          OtherCellAgrees(cfg, rank, good, w, a, id);
        }
      }
  }

  lemma {:induction false} HistoryAgrees(cfg: Config, rank: map<Id, nat>, good: set<Id>, w: World, events: seq<Event>)
    requires WellFormed(cfg.plan, rank) && Agrees(cfg, rank, good, w) && History(cfg, good, w, events)
    ensures Agrees(cfg, rank, good, After(cfg, good, w, events))
    decreases |events|
  {
    if events != [] {
      NextAgrees(cfg, rank, good, w, events[0]);
      HistoryAgrees(cfg, rank, good, Next(cfg, w, events[0]), events[1..]);
    }
  }

  ghost function Submitted(cfg: Config, t: real): World {
    World(Initial(cfg, map[], t), {}, {})
  }

  /** Whatever the interleaving of replies, duplicates, timers and crashes, a
      resolved subtask has a result exactly when the plan, read as a circuit
      over the working subtasks, yields one. */
  lemma OutcomeIsTheMeaning(cfg: Config, rank: map<Id, nat>, good: set<Id>, t: real, events: seq<Event>, id: Id)
    requires WellFormed(cfg.plan, rank) && id in Ids(cfg.plan)
    requires History(cfg, good, Submitted(cfg, t), events)
    ensures var s := After(cfg, good, Submitted(cfg, t), events).s;
      id in s.cells && (Resolved(s, id) ==> (Succeeded(s, id) <==> Yields(cfg.plan, rank, good, id)))
  {
    InitialInv(cfg, map[], t);
    var w := Submitted(cfg, t);
    assert Agrees(cfg, rank, good, w);
    HistoryAgrees(cfg, rank, good, w, events);
    assert CellAgrees(cfg, rank, good, After(cfg, good, w, events), id);
  }

  ghost predicate Finished(s: State) {
    forall id :: id in s.cells ==> !s.cells[id].pending
  }

  /** Any two histories that finish the task give it the same terminal status. */
  lemma StatusIsDetermined(cfg: Config, rank: map<Id, nat>, good: set<Id>,
                           t1: real, h1: seq<Event>, t2: real, h2: seq<Event>)
    requires WellFormed(cfg.plan, rank)
    requires History(cfg, good, Submitted(cfg, t1), h1) && History(cfg, good, Submitted(cfg, t2), h2)
    requires Finished(After(cfg, good, Submitted(cfg, t1), h1).s)
    requires Finished(After(cfg, good, Submitted(cfg, t2), h2).s)
    ensures DetermineFinalStatus(cfg.plan, ResultsOf(After(cfg, good, Submitted(cfg, t1), h1).s))
         == DetermineFinalStatus(cfg.plan, ResultsOf(After(cfg, good, Submitted(cfg, t2), h2).s))
  {
    forall st | st in cfg.plan.subtasks
      ensures HasResult(ResultsOf(After(cfg, good, Submitted(cfg, t1), h1).s), st)
         <==> HasResult(ResultsOf(After(cfg, good, Submitted(cfg, t2), h2).s), st)
    {
      FinishedResult(cfg, rank, good, t1, h1, st);
      FinishedResult(cfg, rank, good, t2, h2, st);
    }
    StatusFromSuccesses(cfg.plan, ResultsOf(After(cfg, good, Submitted(cfg, t1), h1).s),
                        ResultsOf(After(cfg, good, Submitted(cfg, t2), h2).s));
  }

  lemma FinishedResult(cfg: Config, rank: map<Id, nat>, good: set<Id>, t: real, h: seq<Event>, st: Subtask)
    requires WellFormed(cfg.plan, rank) && st in cfg.plan.subtasks
    requires History(cfg, good, Submitted(cfg, t), h) && Finished(After(cfg, good, Submitted(cfg, t), h).s)
    ensures st.id in Ids(cfg.plan)
    ensures HasResult(ResultsOf(After(cfg, good, Submitted(cfg, t), h).s), st) <==> Yields(cfg.plan, rank, good, st.id)
  {
    GetIsEntry(cfg.plan, rank, st);
    InitialInv(cfg, map[], t);
    assert Agrees(cfg, rank, good, Submitted(cfg, t));
    HistoryAgrees(cfg, rank, good, Submitted(cfg, t), h);
    var s := After(cfg, good, Submitted(cfg, t), h).s;
    assert CellInv(s.cells[st.id]) && CellAgrees(cfg, rank, good, After(cfg, good, Submitted(cfg, t), h), st.id);
  }
}
