/** Dependency safety and retry stability: what may be sent, and when. */
module Safety {
  import opened Basics
  import opened Plans
  import opened Payloads
  import opened Retry
  import opened Dispatch
  import opened Invariants

  /** A refuse that cannot cause a request before its time: for a subtask already
      sent, or out of retries, or with nothing left to wait for. */
  ghost predicate Harmless(cfg: Config, s: State, a: Action) {
    a.Refuse? && a.id in s.cells && a.id in Ids(cfg.plan) ==>
      || s.cells[a.id].published
      || s.cells[a.id].retries >= RETRY_MAX
      || DepsResolved(s, Get(cfg.plan, a.id))
  }

  /** All actions legal, and every refuse harmless. */
  ghost predicate LegalHarmless(cfg: Config, s: State, acts: seq<Action>)
    decreases |acts|
  {
    acts == [] ||
    (Enabled(cfg, s, acts[0]) && Harmless(cfg, s, acts[0]) && LegalHarmless(cfg, Apply(cfg, s, acts[0]), acts[1..]))
  }

  lemma {:induction false} HarmlessIsLegal(cfg: Config, s: State, acts: seq<Action>)
    requires LegalHarmless(cfg, s, acts)
    ensures Legal(cfg, s, acts)
    decreases |acts|
  {
    if acts != [] {
      HarmlessIsLegal(cfg, Apply(cfg, s, acts[0]), acts[1..]);
    }
  }

  /** A dependency was resolved no later than the given moment. */
  predicate ResolvedBy(s: State, d: Id, at: real) {
    Resolved(s, d) && s.cells[d].resolvedAt.Some? && s.cells[d].resolvedAt.value <= at
  }

  /** The request is the one the subtask's resolved upstreams determine, and it
      went out after all of them were resolved. */
  predicate Justified(cfg: Config, s: State, st: Subtask, r: Request) {
    && r == RequestFor(cfg, s, st).(at := r.at)
    && r.at <= s.now
    && forall d :: d in st.dependsOn ==> ResolvedBy(s, d, r.at)
  }

  /** The subtask was sent only with its join condition met. */
  predicate SentSafely(cfg: Config, s: State, st: Subtask) {
    st.id in s.cells && s.cells[st.id].sent != [] ==>
      && DepsResolved(s, st) && JoinMet(s, st)
      && forall r :: r in s.cells[st.id].sent ==> Justified(cfg, s, st, r)
  }

  ghost predicate AllSentSafely(cfg: Config, s: State) {
    forall st :: st in cfg.plan.subtasks ==> SentSafely(cfg, s, st)
  }

  /** Nothing was sent before its time so far. */
  ghost predicate SafeSoFar(cfg: Config, s: State) {
    && Inv(cfg, s) && AllSentSafely(cfg, s)
    && forall id :: id in s.cells && s.cells[id].resolvedAt.Some? ==> s.cells[id].resolvedAt.value <= s.now
  }

  /** A backoff belongs to a subtask that was sent, or that is ready and will be
      sent before the backoff is over. */
  ghost predicate TimersJustified(cfg: Config, s: State) {
    forall id :: id in s.cells && id in Ids(cfg.plan) && s.cells[id].retryAt.Some? ==>
      s.cells[id].published || (DepsResolved(s, Get(cfg.plan, id)) && s.cells[id].retryAt.value > s.now)
  }

  ghost predicate Safe(cfg: Config, s: State) {
    SafeSoFar(cfg, s) && TimersJustified(cfg, s)
  }

  lemma InitialSafe(cfg: Config, stored: map<Id, Content>, t: real)
    ensures Safe(cfg, Initial(cfg, stored, t))
  {
  }

  /** Results already there when a subtask's dependencies are resolved are the
      ones its request is built from, for good. */
  lemma RequestStable(cfg: Config, s: State, t: State, st: Subtask)
    requires cfg.plan == BuildPlan(cfg.task) && Inv(cfg, s) && Inv(cfg, t)
    requires st in cfg.plan.subtasks && DepsResolved(s, st)
    requires forall d :: d in st.dependsOn ==> d in t.cells && t.cells[d] == s.cells[d]
    ensures RequestFor(cfg, t, st) == RequestFor(cfg, s, st).(at := t.now)
  {
    PayloadReadsOnlyDependencies(st, cfg.task, ResultsOf(s), ResultsOf(t));
  }

  /** No action touches a dependency once all dependencies are resolved. */
  lemma DependenciesFrozen(cfg: Config, s: State, a: Action, st: Subtask)
    requires Inv(cfg, s) && Enabled(cfg, s, a) && DepsResolved(s, st)
    ensures var t := Apply(cfg, s, a);
      && (forall d :: d in st.dependsOn ==> d in t.cells && t.cells[d] == s.cells[d])
      && DepsResolved(t, st)
  {
    if !a.Sample? {
      assert CellInv(s.cells[a.id]);
      assert a.id in st.dependsOn ==> Resolved(s, a.id);
    }
    assert forall d :: d in st.dependsOn ==> Resolved(s, d);
  }

  lemma JoinFollowsDependencies(s: State, t: State, st: Subtask)
    requires forall d :: d in st.dependsOn ==> d in s.cells && d in t.cells && t.cells[d] == s.cells[d]
    ensures JoinMet(t, st) <==> JoinMet(s, st)
  {
    assert forall d :: d in st.dependsOn ==> (Succeeded(t, d) <==> Succeeded(s, d));
  }

  /** A justified request stays justified. */
  lemma JustificationPersists(cfg: Config, s: State, a: Action, st: Subtask)
    requires cfg.plan == BuildPlan(cfg.task)
    requires Inv(cfg, s) && Enabled(cfg, s, a)
    requires st in cfg.plan.subtasks && DepsResolved(s, st)
    ensures DepsResolved(Apply(cfg, s, a), st) && (JoinMet(Apply(cfg, s, a), st) <==> JoinMet(s, st))
    ensures forall r :: Justified(cfg, s, st, r) ==> Justified(cfg, Apply(cfg, s, a), st, r)
  {
    var t := Apply(cfg, s, a);
    StepInv(cfg, s, a);
    DependenciesFrozen(cfg, s, a, st);
    JoinFollowsDependencies(s, t, st);
    RequestStable(cfg, s, t, st);
    forall r | Justified(cfg, s, st, r) ensures Justified(cfg, t, st, r) {
      forall d | d in st.dependsOn ensures ResolvedBy(t, d, r.at) {
        assert ResolvedBy(s, d, r.at);
      }
    }
  }

  lemma NewRequestJustified(cfg: Config, s: State, a: Action, st: Subtask)
    requires cfg.plan == BuildPlan(cfg.task)
    requires Safe(cfg, s) && Enabled(cfg, s, a)
    requires st in cfg.plan.subtasks && !a.Sample? && a.id == st.id
    requires Get(cfg.plan, st.id) == st
    ensures SentSafely(cfg, Apply(cfg, s, a), st)
  {
    var t := Apply(cfg, s, a);
    var c := s.cells[st.id];
    assert SentSafely(cfg, s, st) && CellInv(c);
    if t.cells[st.id].sent != [] {
      assert a.Republish? ==> c.published && c.sent != [];
      assert DepsResolved(s, st) && JoinMet(s, st);
      JustificationPersists(cfg, s, a, st);
      forall d | d in st.dependsOn ensures ResolvedBy(s, d, s.now) {
        assert CellInv(s.cells[d]);
      }
      forall r | r in t.cells[st.id].sent ensures Justified(cfg, t, st, r) {
        assert Justified(cfg, s, st, RequestFor(cfg, s, st));
        assert r in c.sent || r == RequestFor(cfg, s, st);
      }
    }
  }

  lemma StepSentSafely(cfg: Config, rank: map<Id, nat>, s: State, a: Action, st: Subtask)
    requires cfg.plan == BuildPlan(cfg.task) && WellFormed(cfg.plan, rank)
    requires Safe(cfg, s) && Enabled(cfg, s, a) && st in cfg.plan.subtasks
    ensures SentSafely(cfg, Apply(cfg, s, a), st)
  {
    GetIsEntry(cfg.plan, rank, st);
    if !a.Sample? && a.id == st.id {
      NewRequestJustified(cfg, s, a, st);
    } else if st.id in s.cells && s.cells[st.id].sent != [] {
      assert SentSafely(cfg, s, st);
      JustificationPersists(cfg, s, a, st);
    }
  }

  lemma StepTimersJustified(cfg: Config, s: State, a: Action)
    requires Inv(cfg, s) && Coherent(cfg.plan) && TimersJustified(cfg, s) && Enabled(cfg, s, a) && Harmless(cfg, s, a)
    ensures TimersJustified(cfg, Apply(cfg, s, a))
  {
    var t := Apply(cfg, s, a);
    forall id | id in t.cells && id in Ids(cfg.plan) && t.cells[id].retryAt.Some?
      ensures t.cells[id].published || (DepsResolved(t, Get(cfg.plan, id)) && t.cells[id].retryAt.value > t.now)
    {
      var st := Get(cfg.plan, id);
      assert CellInv(s.cells[id]);
      if DepsResolved(s, st) {
        DependenciesFrozen(cfg, s, a, st);
      }
      if a.Sample? {
        assert !Ready(s, st);
      }
    }
  }

  lemma StepSafe(cfg: Config, rank: map<Id, nat>, s: State, a: Action)
    requires cfg.plan == BuildPlan(cfg.task) && WellFormed(cfg.plan, rank)
    requires Safe(cfg, s) && Enabled(cfg, s, a) && Harmless(cfg, s, a)
    ensures Safe(cfg, Apply(cfg, s, a))
  {
    StepInv(cfg, s, a);
    StepTimersJustified(cfg, s, a);
    forall st | st in cfg.plan.subtasks ensures SentSafely(cfg, Apply(cfg, s, a), st) {
      StepSentSafely(cfg, rank, s, a, st);
    }
    StepTimes(cfg, s, a);
  }

  lemma StepTimes(cfg: Config, s: State, a: Action)
    requires Enabled(cfg, s, a)
    requires forall id :: id in s.cells && s.cells[id].resolvedAt.Some? ==> s.cells[id].resolvedAt.value <= s.now
    ensures var t := Apply(cfg, s, a);
      forall id :: id in t.cells && t.cells[id].resolvedAt.Some? ==> t.cells[id].resolvedAt.value <= t.now
  {
  }

  lemma {:induction false} RunSafe(cfg: Config, rank: map<Id, nat>, s: State, acts: seq<Action>)
    requires cfg.plan == BuildPlan(cfg.task) && WellFormed(cfg.plan, rank)
    requires Safe(cfg, s) && LegalHarmless(cfg, s, acts)
    ensures Legal(cfg, s, acts) && Safe(cfg, Exec(cfg, s, acts))
    decreases |acts|
  {
    HarmlessIsLegal(cfg, s, acts);
    if acts != [] {
      StepSafe(cfg, rank, s, acts[0]);
      RunSafe(cfg, rank, Apply(cfg, s, acts[0]), acts[1..]);
    }
  }

  /** All dependencies were resolved, with the join condition met, before the
      subtask was first sent; and every request sent for it has one content. */
  predicate SentOnceReadyAndAlike(s: State, st: Subtask) {
    st.id in s.cells && s.cells[st.id].sent != [] ==>
      var sent := s.cells[st.id].sent;
      && DepsResolved(s, st) && JoinMet(s, st)
      && (forall r, d :: r in sent && d in st.dependsOn ==> ResolvedBy(s, d, r.at))
      && (forall r :: r in sent ==> r.content == sent[0].content)
  }

  lemma SafeMeansAlike(cfg: Config, s: State, st: Subtask)
    requires Safe(cfg, s) && st in cfg.plan.subtasks
    ensures SentOnceReadyAndAlike(s, st)
  {
    assert SentSafely(cfg, s, st);
    if st.id in s.cells && s.cells[st.id].sent != [] {
      assert Justified(cfg, s, st, s.cells[st.id].sent[0]);
      assert forall r :: r in s.cells[st.id].sent ==> Justified(cfg, s, st, r);
    }
  }

  /** Dependency safety and retry stability of every run of a built plan, from a
      submission or a recovery, provided that refuses are harmless: every request
      went out after its dependencies were resolved with the join condition met,
      and every re-send carries the content of the first. */
  lemma SendsAreSafeAndStable(task: Task, timeouts: map<AgentName, real>,
                              stored: map<Id, Content>, t: real, acts: seq<Action>, st: Subtask)
    requires LegalHarmless(Config(task, BuildPlan(task), timeouts),
                           Initial(Config(task, BuildPlan(task), timeouts), stored, t), acts)
    requires st in BuildPlan(task).subtasks
    ensures var cfg := Config(task, BuildPlan(task), timeouts);
      && Legal(cfg, Initial(cfg, stored, t), acts)
      && SentOnceReadyAndAlike(Exec(cfg, Initial(cfg, stored, t), acts), st)
  {
    var cfg := Config(task, BuildPlan(task), timeouts);
    BuildPlanWellFormed(task);
    var s0 := Initial(cfg, stored, t);
    InitialSafe(cfg, stored, t);
    RunSafe(cfg, PlanRank(task), s0, acts);
    SafeMeansAlike(cfg, Exec(cfg, s0, acts), st);
  }

  /** The results of the subtasks that succeeded so far, and no others. */
  predicate HoldsResults(results: Results, s: State) {
    && (forall id :: id in results && results[id].Some? ==>
          id in s.cells && s.cells[id].result == Success(results[id].value))
    && (forall id :: id in s.cells && s.cells[id].result.Success? ==>
          id in results && results[id] == Some(s.cells[id].result.content))
  }

  /** Whatever was requested in such a run shows the attached documents, or the
      results of the upstreams: not as they happened to be when the request went
      out, but as they are at any time from then on. */
  lemma RequestsCarryInputs(task: Task, timeouts: map<AgentName, real>, stored: map<Id, Content>, t: real,
                            acts: seq<Action>, st: Subtask, r: Request, results: Results)
    requires var cfg := Config(task, BuildPlan(task), timeouts);
      LegalHarmless(cfg, Initial(cfg, stored, t), acts) && Legal(cfg, Initial(cfg, stored, t), acts)
    requires var s := Exec(Config(task, BuildPlan(task), timeouts), Initial(Config(task, BuildPlan(task), timeouts), stored, t), acts);
      st in BuildPlan(task).subtasks && st.id in s.cells && r in s.cells[st.id].sent && HoldsResults(results, s)
    ensures r.subtaskId == st.id && r.agent == st.agent && r.conversationId == "conv-" + task.id + "-" + OperationValue(st.operation)
    ensures Carries(r.content, st.operation, task, results)
  {
    var cfg := Config(task, BuildPlan(task), timeouts);
    BuildPlanWellFormed(task);
    InitialSafe(cfg, stored, t);
    RunSafe(cfg, PlanRank(task), Initial(cfg, stored, t), acts);
    var s := Exec(cfg, Initial(cfg, stored, t), acts);
    hide BuildPlan, Exec, Legal, LegalHarmless, Initial;
    SafeRequestCarries(cfg, s, st, r, results);
  }

  lemma SafeRequestCarries(cfg: Config, s: State, st: Subtask, r: Request, results: Results)
    requires Safe(cfg, s) && st in cfg.plan.subtasks && st.id in s.cells && r in s.cells[st.id].sent && HoldsResults(results, s)
    ensures r.subtaskId == st.id && r.agent == st.agent
    ensures r.conversationId == "conv-" + cfg.task.id + "-" + OperationValue(st.operation)
    ensures Carries(r.content, st.operation, cfg.task, results)
  {
    hide Carries, PayloadFor, Inv, JoinMet, DepsResolved;
    assert SentSafely(cfg, s, st) && Justified(cfg, s, st, r);
    PayloadShowsInputs(st, cfg.task, ResultsOf(s));
    SameResultsShown(r.content, st.operation, cfg.task, ResultsOf(s), results);
  }

  // ----- Exactly when safety can be lost -----

  /** Whatever happens from here on with harmless refuses, nothing is sent before
      its time. */
  ghost predicate StaysSafe(cfg: Config, s: State) {
    forall acts, end :: HarmlesslyTo(cfg, s, acts, end) ==> AllSentSafely(cfg, end)
  }

  ghost predicate HarmlesslyTo(cfg: Config, s: State, acts: seq<Action>, end: State) {
    LegalHarmless(cfg, s, acts) && Legal(cfg, s, acts) && Exec(cfg, s, acts) == end
  }

  lemma SafeStaysSafe(cfg: Config, rank: map<Id, nat>, s: State)
    requires cfg.plan == BuildPlan(cfg.task) && WellFormed(cfg.plan, rank) && Safe(cfg, s)
    ensures StaysSafe(cfg, s)
  {
    forall acts, end | HarmlesslyTo(cfg, s, acts, end) ensures AllSentSafely(cfg, end) {
      RunSafe(cfg, rank, s, acts);
    }
  }

  /** There is a request for the subtask although a dependency is unresolved. */
  ghost predicate SentTooSoon(s: State, st: Subtask) {
    st.id in s.cells && s.cells[st.id].sent != [] && !DepsResolved(s, st)
  }

  /** When a backoff of a subtask not yet sent is over, the subtask is sent; at
      rest that is before its dependencies are resolved. */
  lemma BackoffSendsTooSoon(cfg: Config, s: State, id: Id) returns (acts: seq<Action>)
    requires Inv(cfg, s) && Coherent(cfg.plan) && Quiescent(cfg, s) && id in s.cells
    requires s.cells[id].retryAt.Some? && !s.cells[id].published
    ensures acts == [Sample(s.cells[id].retryAt.value), Republish(id)] && LegalHarmless(cfg, s, acts) && Legal(cfg, s, acts)
    ensures SentTooSoon(Exec(cfg, s, acts), Get(cfg.plan, id))
  {
    var st, c := Get(cfg.plan, id), s.cells[id];
    assert CellInv(c) && !Ready(s, st) && !Due(c, s.now);
    var clock := Sample(c.retryAt.value);
    var s1 := Apply(cfg, s, clock);
    assert Enabled(cfg, s1, Republish(id));
    acts := [clock, Republish(id)];
    assert acts[1..] == [Republish(id)] && [Republish(id)][1..] == [];
    var s2 := Apply(cfg, s1, Republish(id));
    assert LegalHarmless(cfg, s1, [Republish(id)]) && Legal(cfg, s1, [Republish(id)]);
    assert Exec(cfg, s1, [Republish(id)]) == s2 && Exec(cfg, s, acts) == s2;
    var d :| d in st.dependsOn && !Resolved(s, d);
    assert !Resolved(s2, d) && s2.cells[id].sent != [];
  }

  /** Safety, exactly: a task at rest stays safe if and only if no backoff runs
      for a subtask that was not sent. */
  lemma RestStaysSafeIff(cfg: Config, rank: map<Id, nat>, s: State)
    requires cfg.plan == BuildPlan(cfg.task) && WellFormed(cfg.plan, rank)
    requires SafeSoFar(cfg, s) && Quiescent(cfg, s)
    ensures StaysSafe(cfg, s) <==> forall id :: id in s.cells && s.cells[id].retryAt.Some? ==> s.cells[id].published
  {
    if forall id :: id in s.cells && s.cells[id].retryAt.Some? ==> s.cells[id].published {
      SafeStaysSafe(cfg, rank, s);
    } else {
      var id :| id in s.cells && s.cells[id].retryAt.Some? && !s.cells[id].published;
      var acts := BackoffSendsTooSoon(cfg, s, id);
      assert HarmlesslyTo(cfg, s, acts, Exec(cfg, s, acts));
    }
  }

  /** A refuse leaves a safe task at rest safe if and only if it is harmless. */
  lemma RefuseStaysSafeIff(cfg: Config, rank: map<Id, nat>, s: State, a: Action)
    requires cfg.plan == BuildPlan(cfg.task) && WellFormed(cfg.plan, rank)
    requires Safe(cfg, s) && Quiescent(cfg, s) && a.Refuse? && Enabled(cfg, s, a)
    ensures StaysSafe(cfg, Apply(cfg, s, a)) <==> Harmless(cfg, s, a)
  {
    if Harmless(cfg, s, a) {
      StepSafe(cfg, rank, s, a);
      SafeStaysSafe(cfg, rank, Apply(cfg, s, a));
    } else {
      RefusedIsAtRest(cfg, s, a);
      var acts := BackoffSendsTooSoon(cfg, Apply(cfg, s, a), a.id);
      assert HarmlesslyTo(cfg, Apply(cfg, s, a), acts, Exec(cfg, Apply(cfg, s, a), acts));
    }
  }

  lemma RefusedIsAtRest(cfg: Config, s: State, a: Action)
    requires Inv(cfg, s) && Quiescent(cfg, s) && a.Refuse? && Enabled(cfg, s, a) && !Harmless(cfg, s, a)
    ensures var t := Apply(cfg, s, a);
      Inv(cfg, t) && Quiescent(cfg, t) && t.cells[a.id].retryAt.Some? && !t.cells[a.id].published
  {
    StepInv(cfg, s, a);
    var t := Apply(cfg, s, a);
    forall st | st in cfg.plan.subtasks ensures !Ready(t, st) {
      assert !Ready(s, st);
      assert forall d :: d in st.dependsOn ==> (Resolved(s, d) <==> Resolved(t, d));
    }
  }
}
