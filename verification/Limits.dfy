/** The situations that the results about safety and order exclude do occur: a
    refuse left over from before a restart leads to them. */
module Limits {
  import opened Basics
  import opened Plans
  import opened Dispatch
  import opened Invariants
  import opened Starts
  import opened Confluence
  import opened Safety

  /** After the first pass a subtask with a missing dependency is still unsent,
      whatever was reloaded. */
  lemma FirstPassWaits(task: Task, timeouts: map<AgentName, real>, stored: map<Id, Content>, t: real, st: Subtask)
    returns (acts: seq<Action>, end: State)
    requires st in BuildPlan(task).subtasks && st.id !in stored && exists d :: d in st.dependsOn && d !in stored
    ensures var cfg := Config(task, BuildPlan(task), timeouts);
      && Settles(cfg, Initial(cfg, stored, t), acts, end) && Safe(cfg, end) && Unresolved(stored, end)
      && WellFormed(cfg.plan, PlanRank(task)) && st.id in end.cells
      && !end.cells[st.id].published && end.cells[st.id].retries == 0 && end.cells[st.id].pending
      && !DepsResolved(end, st)
  {
    var cfg := Config(task, BuildPlan(task), timeouts);
    var init := Initial(cfg, stored, t);
    BuildPlanWellFormed(task);
    InitialSafe(cfg, stored, t);
    acts, end := CanSettle(cfg, init);
    AdvancingIsHarmless(cfg, init, acts);
    RunSafe(cfg, PlanRank(task), init, acts);
    AdvancingResolvesNothing(cfg, stored, init, acts, end);
    var d :| d in st.dependsOn && d !in stored;
    assert d in end.cells && end.cells[d].result == Open;
    assert SentSafely(cfg, end, st) && CellInv(end.cells[st.id]);
  }

  lemma {:induction false} AdvancingIsHarmless(cfg: Config, s: State, acts: seq<Action>)
    requires AllAdvance(acts) && Legal(cfg, s, acts)
    ensures LegalHarmless(cfg, s, acts)
    decreases |acts|
  {
    if acts != [] {
      assert acts == [acts[0]] + acts[1..];
      AdvancingIsHarmless(cfg, Apply(cfg, s, acts[0]), acts[1..]);
    }
  }

  /** The run in which a refuse for an unsent subtask arrives after the first pass. */
  lemma LeftoverRefuse(task: Task, timeouts: map<AgentName, real>, stored: map<Id, Content>, t: real,
                       st: Subtask, reason: string) returns (acts: seq<Action>, end: State)
    requires st in BuildPlan(task).subtasks && st.id !in stored && exists d :: d in st.dependsOn && d !in stored
    ensures var cfg := Config(task, BuildPlan(task), timeouts);
      && AllAdvance(acts) && Legal(cfg, Initial(cfg, stored, t), acts + [Refuse(st.id, reason)])
      && Exec(cfg, Initial(cfg, stored, t), acts + [Refuse(st.id, reason)]) == end
      && Inv(cfg, end) && Quiescent(cfg, end) && WellFormed(cfg.plan, PlanRank(task)) && Get(cfg.plan, st.id) == st
      && (forall id :: id in end.cells ==> end.cells[id].pending || end.cells[id].result.Success?)
      && st.id in end.cells && end.cells[st.id].retryAt.Some? && !end.cells[st.id].published
  {
    hide BuildPlan, PlanRank, Exec, Legal;
    var cfg := Config(task, BuildPlan(task), timeouts);
    var rest;
    acts, rest := FirstPassWaits(task, timeouts, stored, t, st);
    var a := Refuse(st.id, reason);
    GetIsEntry(cfg.plan, PlanRank(task), st);
    assert !Harmless(cfg, rest, a);
    RefusedIsAtRest(cfg, rest, a);
    LegalExtend(cfg, Initial(cfg, stored, t), acts, a);
    end := Apply(cfg, rest, a);
  }

  /** Such a refuse breaks safety: from any submission or recovery in which a
      subtask has to wait, one leftover refuse for it suffices for a request that
      ignores an unresolved dependency. */
  lemma LeftoverRefuseBreaksSafety(task: Task, timeouts: map<AgentName, real>, stored: map<Id, Content>, t: real,
                                   st: Subtask, reason: string) returns (first: seq<Action>, last: seq<Action>)
    requires st in BuildPlan(task).subtasks && st.id !in stored && exists d :: d in st.dependsOn && d !in stored
    ensures AllAdvance(first) && |last| == 2 && last[0].Sample? && last[1] == Republish(st.id)
    ensures var cfg, run := Config(task, BuildPlan(task), timeouts), first + [Refuse(st.id, reason)] + last;
      Legal(cfg, Initial(cfg, stored, t), run) && SentTooSoon(Exec(cfg, Initial(cfg, stored, t), run), st)
  {
    var cfg := Config(task, BuildPlan(task), timeouts);
    var init := Initial(cfg, stored, t);
    var rest;
    first, rest := LeftoverRefuse(task, timeouts, stored, t, st, reason);
    hide BuildPlan, WellFormed, Inv, Quiescent, PlanRank, Legal, Exec;
    last := BackoffSendsTooSoon(cfg, rest, st.id);
    LegalConcat(cfg, init, first + [Refuse(st.id, reason)], last);
  }

  /** An instance: transcription and summary of one recording. */
  lemma LeftoverRefuseExample() returns (task: Task, st: Subtask, first: seq<Action>, last: seq<Action>)
    ensures st in BuildPlan(task).subtasks && AllAdvance(first)
    ensures var cfg, run := Config(task, BuildPlan(task), map[]), first + [Refuse(st.id, "busy")] + last;
      Legal(cfg, Initial(cfg, map[], 0.0), run) && SentTooSoon(Exec(cfg, Initial(cfg, map[], 0.0), run), st)
  {
    var d;
    task, st, d := RecordingWithSummary();
    first, last := LeftoverRefuseBreaksSafety(task, map[], map[], 0.0, st, "busy");
  }

  lemma RecordingWithSummary() returns (task: Task, st: Subtask, d: Id)
    ensures st in BuildPlan(task).subtasks && d in st.dependsOn
  {
    task := Task("1", [F1, F3], [Document("d", Audio, "recording")]);
    var eligible := Eligible(task, task.requestedOutputs);
    assert task.documents[0] in task.documents && HasAudio(task);
    assert task.requestedOutputs[0] == F1 && task.requestedOutputs[1] == F3;
    st := SubtaskFor(task, eligible, F3);
    BuildPlanEntries(task, st);
    var up := SubtaskFor(task, eligible, F1);
    BuildPlanEntries(task, up);
    d := SubtaskIdFor(task.id, F1);
    DependenciesAreUpstreamsInPlan(task, st, F1);
    EntryHasId(BuildPlan(task).subtasks, up);
  }

  // ----- Order -----

  /** All given subtasks that are pending are informed. */
  lemma {:induction false} InformAll(cfg: Config, s: State, ids: seq<Id>) returns (acts: seq<Action>, end: State)
    requires Inv(cfg, s) && forall i :: 0 <= i < |ids| ==> ids[i] in s.cells
    requires forall id :: id in s.cells ==> s.cells[id].pending || s.cells[id].result.Success?
    ensures Legal(cfg, s, acts) && Exec(cfg, s, acts) == end && Inv(cfg, end) && end.now == s.now
    ensures forall id :: id in s.cells ==> id in end.cells && (end.cells[id].pending || end.cells[id].result.Success?)
    ensures forall id :: id in s.cells && id !in ids ==> end.cells[id] == s.cells[id]
    ensures forall i :: 0 <= i < |ids| ==> Succeeded(end, ids[i])
  {
    if ids == [] {
      acts, end := [], s;
    } else {
      var n := |ids| - 1;
      assert ids == ids[..n] + [ids[n]];
      var before;
      acts, before := InformAll(cfg, s, ids[..n]);
      end := before;
      var a := Inform(ids[n], map[]);
      if before.cells[ids[n]].pending {
        LegalExtend(cfg, s, acts, a);
        StepInv(cfg, before, a);
        end := Apply(cfg, before, a);
        acts := acts + [a];
      }
    }
  }

  /** A leftover refuse also makes the order of the loops matter: there is a run
      from every such submission or recovery to a state in which the subtask is
      ready while its backoff is over. It can be sent once or twice. */
  lemma LeftoverRefuseMakesOrderMatter(task: Task, timeouts: map<AgentName, real>, stored: map<Id, Content>, t: real,
                                       st: Subtask, reason: string) returns (run: seq<Action>, end: State)
    requires st in BuildPlan(task).subtasks && st.id !in stored && exists d :: d in st.dependsOn && d !in stored
    ensures var cfg := Config(task, BuildPlan(task), timeouts);
      && Legal(cfg, Initial(cfg, stored, t), run) && Exec(cfg, Initial(cfg, stored, t), run) == end
      && Inv(cfg, end) && !OrderIndependent(cfg, end)
  {
    var cfg, rank := Config(task, BuildPlan(task), timeouts), PlanRank(task);
    var init := Initial(cfg, stored, t);
    hide BuildPlan, PlanRank, Exec, Legal, WellFormed;
    var first, rest;
    first, rest := LeftoverRefuse(task, timeouts, stored, t, st, reason);
    var clock := Sample(rest.cells[st.id].retryAt.value);
    assert !Due(rest.cells[st.id], rest.now);
    LegalExtend(cfg, init, first + [Refuse(st.id, reason)], clock);
    StepInv(cfg, rest, clock);
    var s1 := Apply(cfg, rest, clock);
    NotItsOwnDependency(cfg.plan, rank, st);
    var more;
    more, end := InformAll(cfg, s1, st.dependsOn);
    LegalConcat(cfg, init, first + [Refuse(st.id, reason)] + [clock], more);
    run := first + [Refuse(st.id, reason)] + [clock] + more;
    NowTorn(cfg, rank, end, st);
  }

  lemma NotItsOwnDependency(plan: Plan, rank: map<Id, nat>, st: Subtask)
    requires WellFormed(plan, rank) && st in plan.subtasks
    ensures st.id !in st.dependsOn && forall i :: 0 <= i < |st.dependsOn| ==> st.dependsOn[i] in Ids(plan)
  {
  }

  lemma NowTorn(cfg: Config, rank: map<Id, nat>, s: State, st: Subtask)
    requires Inv(cfg, s) && WellFormed(cfg.plan, rank) && st in cfg.plan.subtasks && st.id in s.cells
    requires s.cells[st.id].pending && !s.cells[st.id].published && Due(s.cells[st.id], s.now)
    requires forall i :: 0 <= i < |st.dependsOn| ==> Succeeded(s, st.dependsOn[i])
    ensures !OrderIndependent(cfg, s)
  {
    GetIsEntry(cfg.plan, rank, st);
    assert forall d :: d in st.dependsOn ==> Succeeded(s, d) && Resolved(s, d);
    if st.dependsOn != [] {
      assert st.dependsOn[0] in st.dependsOn;
    }
    var p, a, q, b := TornMeansOrderShows(cfg, s, st.id);
  }
}
