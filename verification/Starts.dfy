/** The first pass of a submitted or resumed task. */
module Starts {
  import opened Basics
  import opened Plans
  import opened Dispatch
  import opened Invariants
  import opened Confluence

  /** Nothing resolved since the start: what was reloaded is a success, and what
      has already expired waits for a later reading of the clock. */
  ghost predicate Unresolved(loaded: map<Id, Content>, s: State) {
    forall id :: id in s.cells ==>
      var c := s.cells[id];
      && c.pending == (id !in loaded)
      && c.result == (if id in loaded then Success(loaded[id]) else Open)
      && (c.retries == 0 ==> c.retryAt.None?)
      && (c.retries > 0 ==> c.published && c.deadline.None? && c.retryAt.Some? && c.retryAt.value > s.now)
  }

  lemma StaysUnresolved(cfg: Config, loaded: map<Id, Content>, s: State, a: Action)
    requires Inv(cfg, s) && Unresolved(loaded, s) && IsAdvance(a) && Enabled(cfg, s, a)
    ensures Unresolved(loaded, Apply(cfg, s, a))
  {
    assert CellInv(s.cells[a.id]);
    if a.Skip? {
      var st := Get(cfg.plan, a.id);
      assert forall d :: d in st.dependsOn ==> Resolved(s, d) && s.cells[d].result != Failure;
      assert forall d :: d in st.dependsOn ==> Succeeded(s, d);
      if st.dependsOn != [] {
        assert st.dependsOn[0] in st.dependsOn;
      }
      assert JoinMet(s, st);
    }
  }

  lemma {:induction false} AdvancingResolvesNothing(
      cfg: Config, loaded: map<Id, Content>, s: State, acts: seq<Action>, end: State)
    requires Inv(cfg, s) && Unresolved(loaded, s) && Advances(cfg, s, acts, end)
    ensures Unresolved(loaded, end)
    decreases |acts|
  {
    if acts != [] {
      StaysUnresolved(cfg, loaded, s, acts[0]);
      StepInv(cfg, s, acts[0]);
      assert acts == [acts[0]] + acts[1..];
      AdvancingResolvesNothing(cfg, loaded, Apply(cfg, s, acts[0]), acts[1..], end);
    }
  }

  /** Registering a task resolves no subtask, whatever was reloaded: nothing is
      skipped, and no subtask can use up its retries at one clock reading. So
      the verdict is never due before the first turn of the run loop. */
  lemma RegisteringResolvesNothing(cfg: Config, loaded: map<Id, Content>, now: real, acts: seq<Action>, end: State)
    requires Settles(cfg, Initial(cfg, loaded, now), acts, end)
    ensures forall id :: id in end.cells ==> end.cells[id].pending == (id !in loaded)
    ensures ResultsOf(end) == map id | id in end.cells && id in loaded :: Some(loaded[id])
  {
    InitialInv(cfg, loaded, now);
    AdvancingResolvesNothing(cfg, loaded, Initial(cfg, loaded, now), acts, end);
  }
}
