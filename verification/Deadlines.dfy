/** Which global deadlines can cut off a task with work pending: exactly those
    below its critical path. */
module Deadlines {
  import opened Basics
  import opened Plans
  import opened Retry
  import opened Dispatch
  import opened Invariants
  import opened Budget
  import opened Timing

  /** A run in which the clock is read at least every delta seconds. */
  ghost predicate TimelyTo(cfg: Config, s: State, acts: seq<Action>, delta: real, end: State) {
    LegalTimely(cfg, s, acts, delta) && Legal(cfg, s, acts) && Exec(cfg, s, acts) == end
  }

  lemma {:induction false} TimelyConcat(cfg: Config, s: State, a: seq<Action>, delta: real, t: State, b: seq<Action>, end: State)
    requires TimelyTo(cfg, s, a, delta, t) && TimelyTo(cfg, t, b, delta, end)
    ensures TimelyTo(cfg, s, a + b, delta, end)
    decreases |a|
  {
    if a == [] {
      assert a + b == b;
    } else {
      assert (a + b)[0] == a[0] && (a + b)[1..] == a[1..] + b;
      TimelyConcat(cfg, Apply(cfg, s, a[0]), a[1..], delta, t, b, end);
    }
  }

  lemma TimelyStep(cfg: Config, s: State, a: Action, delta: real)
    requires Enabled(cfg, s, a) && Timely(s, a, delta)
    ensures TimelyTo(cfg, s, [a], delta, Apply(cfg, s, a))
  {
    var run, end := [a], Apply(cfg, s, a);
    assert run[0] == a && run[1..] == [];
    assert LegalTimely(cfg, end, [], delta) && Legal(cfg, end, []) && Exec(cfg, end, []) == end;
    assert LegalTimely(cfg, s, run, delta) && Legal(cfg, s, run) && Exec(cfg, s, run) == end;
  }

  // ----- A deadline past the critical path -----

  /** At rest a pending subtask has at least one clock reading left. */
  lemma {:induction false} RestInTime(cfg: Config, rank: map<Id, nat>, delta: real, s: State, id: Id)
    requires WellFormed(cfg.plan, rank) && Inv(cfg, s) && TimeoutsNonNegative(cfg) && delta >= 0.0
    requires OnSchedule(cfg, rank, delta, s) && Quiescent(cfg, s) && id in s.cells && s.cells[id].pending
    ensures s.now <= s.startedAt + FinishBy(cfg, rank, delta, id) - delta
    decreases rank[id]
  {
    var st := Get(cfg.plan, id);
    assert CellOnSchedule(cfg, rank, delta, s, id);
    if s.cells[id].published {
      PublishedWithinSpan(cfg, s, id, delta);
    } else {
      assert !Ready(s, st);
      var d :| d in st.dependsOn && !Resolved(s, d);
      assert d in Ids(cfg.plan) && CellInv(s.cells[d]);
      RestInTime(cfg, rank, delta, s, d);
    }
  }

  /** The deadline is at or past every critical path. */
  ghost predicate Sufficient(cfg: Config, rank: map<Id, nat>, delta: real, deadline: real)
    requires WellFormed(cfg.plan, rank)
  {
    forall id :: id in Ids(cfg.plan) ==> FinishBy(cfg, rank, delta, id) - delta <= deadline
  }

  /** No run with timely clock readings, whatever was reloaded and whatever the
      replies, is at rest with work pending after such a deadline. */
  lemma SufficientNeverCutsOff(cfg: Config, rank: map<Id, nat>, delta: real, stored: map<Id, Content>, t: real,
                               acts: seq<Action>, end: State, deadline: real)
    requires WellFormed(cfg.plan, rank) && TimeoutsNonNegative(cfg) && delta >= 0.0
    requires Sufficient(cfg, rank, delta, deadline)
    requires TimelyTo(cfg, Initial(cfg, stored, t), acts, delta, end) && Quiescent(cfg, end) && HasPending(end)
    ensures end.startedAt == t && end.now - t <= deadline
  {
    hide OnSchedule, Quiescent, Inv, LegalTimely, Legal, Exec, WellFormed, FinishBy;
    InitialOnSchedule(cfg, rank, delta, stored, t);
    RunOnSchedule(cfg, rank, delta, Initial(cfg, stored, t), acts);
    var id :| id in end.cells && end.cells[id].pending;
    RestInTime(cfg, rank, delta, end, id);
  }

  // ----- A deadline before some critical path -----

  /** Nothing is sent or resolved before its dependencies. */
  ghost predicate InOrderSoFar(cfg: Config, s: State) {
    forall st :: st in cfg.plan.subtasks && st.id in s.cells && (s.cells[st.id].published || !s.cells[st.id].pending) ==>
      DepsResolved(s, st)
  }

  /** At rest with one subtask awaited; every other has succeeded or is untouched. */
  ghost predicate Alone(cfg: Config, s: State, id: Id) {
    && Inv(cfg, s) && InOrderSoFar(cfg, s) && id in s.cells && s.cells[id].pending && s.cells[id].published
    && (forall st :: st in cfg.plan.subtasks ==> !Ready(s, st))
    && forall x :: x in s.cells && x != id ==> s.cells[x].result.Success? || s.cells[x] == FRESH_CELL
  }

  lemma AloneIsAtRest(cfg: Config, s: State, id: Id)
    requires Alone(cfg, s, id) && !Expired(s.cells[id], s.now) && !Due(s.cells[id], s.now)
    ensures Quiescent(cfg, s)
  {
    forall x | x in s.cells ensures !Expired(s.cells[x], s.now) && !Due(s.cells[x], s.now) {
      assert CellInv(s.cells[x]);
    }
  }

  /** Alone with the next deadline, after so many retries. */
  ghost predicate Awaits(cfg: Config, s: State, id: Id, retries: nat, deadline: real) {
    && Alone(cfg, s, id) && s.now <= deadline
    && s.cells[id].retries == retries && s.cells[id].deadline == Some(deadline) && s.cells[id].retryAt == None
  }

  /** The timer of the awaited subtask goes off no earlier than u. */
  predicate SleepsUntil(c: Cell, u: real) {
    (c.deadline.Some? ==> u <= c.deadline.value) && (c.retryAt.Some? ==> u < c.retryAt.value)
  }

  lemma LaterAlone(cfg: Config, s: State, id: Id, u: real)
    requires Alone(cfg, s, id) && s.now <= u
    ensures Alone(cfg, s.(now := u), id)
  {
    var t := s.(now := u);
    assert forall st :: st in cfg.plan.subtasks ==> (Ready(t, st) <==> Ready(s, st)) && (DepsResolved(t, st) <==> DepsResolved(s, st));
  }

  /** While the awaited timer sleeps the clock can be read as often as needed. */
  lemma {:induction false} Wait(cfg: Config, s: State, id: Id, u: real, delta: real, steps: nat) returns (acts: seq<Action>)
    requires Alone(cfg, s, id) && SleepsUntil(s.cells[id], u) && !Due(s.cells[id], s.now)
    requires delta > 0.0 && s.now <= u <= s.now + steps as real * delta
    ensures TimelyTo(cfg, s, acts, delta, s.(now := u)) && Alone(cfg, s.(now := u), id) && Quiescent(cfg, s.(now := u))
    decreases steps
  {
    AloneIsAtRest(cfg, s, id);
    LaterAlone(cfg, s, id, u);
    AloneIsAtRest(cfg, s.(now := u), id);
    if u <= s.now + delta {
      TimelyStep(cfg, s, Sample(u), delta);
      acts := [Sample(u)];
    } else {
      var next := s.(now := s.now + delta);
      TimelyStep(cfg, s, Sample(next.now), delta);
      LaterAlone(cfg, s, id, next.now);
      FewerSteps(s.now, u, delta, steps);
      var rest := Wait(cfg, next, id, u, delta, steps - 1);
      assert next.(now := u) == s.(now := u);
      TimelyConcat(cfg, s, [Sample(next.now)], delta, next, rest, s.(now := u));
      acts := [Sample(next.now)] + rest;
    }
  }

  lemma FewerSteps(now: real, u: real, delta: real, steps: nat)
    requires delta > 0.0 && u > now + delta && u <= now + steps as real * delta
    ensures steps > 0 && u <= now + delta + (steps - 1) as real * delta
  {
    if steps > 0 {
      assert steps as real * delta == (steps - 1) as real * delta + delta;
    }
  }

  lemma EnoughSteps(span: real, delta: real) returns (steps: nat)
    requires delta > 0.0 && span >= 0.0
    ensures span <= steps as real * delta
  {
    var quotient := span / delta;
    steps := quotient.Floor + 1;
    assert quotient <= steps as real;
    assert quotient * delta == span;
    assert quotient * delta <= steps as real * delta;
  }

  lemma WaitUntil(cfg: Config, s: State, id: Id, u: real, delta: real) returns (acts: seq<Action>)
    requires Alone(cfg, s, id) && SleepsUntil(s.cells[id], u) && !Due(s.cells[id], s.now) && delta > 0.0 && s.now <= u
    ensures TimelyTo(cfg, s, acts, delta, s.(now := u)) && Alone(cfg, s.(now := u), id) && Quiescent(cfg, s.(now := u))
  {
    var steps := EnoughSteps(u - s.now, delta);
    acts := Wait(cfg, s, id, u, delta, steps);
  }

  /** An effect on the awaited subtask that leaves it awaited. */
  lemma StillAlone(cfg: Config, s: State, a: Action)
    requires !a.Sample? && Alone(cfg, s, a.id) && Enabled(cfg, s, a)
    requires NewCell(cfg, s, a).pending && NewCell(cfg, s, a).published
    ensures Alone(cfg, Apply(cfg, s, a), a.id)
  {
    var t := Apply(cfg, s, a);
    StepInv(cfg, s, a);
    assert CellInv(s.cells[a.id]) && CellInv(t.cells[a.id]);
    forall st | st in cfg.plan.subtasks
      ensures (DepsResolved(t, st) <==> DepsResolved(s, st)) && !Ready(t, st)
    {
      assert forall d :: d in st.dependsOn ==> (Resolved(t, d) <==> Resolved(s, d));
      assert !Ready(s, st);
    }
  }

  /** The attempt expires as late as it can. */
  lemma ExpireLate(cfg: Config, s: State, id: Id, k: nat, deadline: real, delta: real) returns (acts: seq<Action>, end: State)
    requires Awaits(cfg, s, id, k, deadline) && k < RETRY_MAX && delta > 0.0
    ensures TimelyTo(cfg, s, acts, delta, end) && Alone(cfg, end, id) && end.now == deadline + delta
    ensures end.cells[id].retries == k + 1 && end.cells[id].deadline == None
    ensures end.cells[id].retryAt == Some(end.now + BACKOFF_SECONDS[k])
    ensures end.startedAt == s.startedAt
  {
    acts := WaitUntil(cfg, s, id, deadline, delta);
    var s1 := s.(now := deadline);
    var clock, expire := Sample(deadline + delta), Expire(id);
    TimelyStep(cfg, s1, clock, delta);
    var s2 := s1.(now := deadline + delta);
    LaterAlone(cfg, s1, id, s2.now);
    StillAlone(cfg, s2, expire);
    TimelyStep(cfg, s2, expire, delta);
    TimelyConcat(cfg, s, acts, delta, s1, [clock], s2);
    end := Apply(cfg, s2, expire);
    TimelyConcat(cfg, s, acts + [clock], delta, s2, [expire], end);
    acts := acts + [clock] + [expire];
  }

  lemma AloneHas(cfg: Config, s: State, id: Id)
    requires Alone(cfg, s, id)
    ensures id in s.cells && s.cells[id].pending && s.cells[id].published
  {
  }

  /** The retry goes out as late as it can, but for x. */
  lemma ResendLate(cfg: Config, s: State, id: Id, k: nat, retryAt: real, delta: real, x: real)
    returns (acts: seq<Action>, end: State)
    requires Alone(cfg, s, id) && s.cells[id].deadline == None && s.cells[id].retryAt == Some(retryAt)
    requires s.cells[id].retries == k && delta > 0.0 && 0.0 < x <= delta && s.now <= retryAt - x
    requires id in Ids(cfg.plan) && TimeoutOf(cfg, id) >= 0.0
    ensures TimelyTo(cfg, s, acts, delta, end) && end.startedAt == s.startedAt
    ensures Awaits(cfg, end, id, k, retryAt - x + delta + TimeoutOf(cfg, id))
  {
    hide Alone, TimelyTo, Inv;
    AloneHas(cfg, s, id);
    acts := WaitUntil(cfg, s, id, retryAt - x, delta);
    var s1 := s.(now := retryAt - x);
    var clock, resend := Sample(retryAt - x + delta), Republish(id);
    TimelyStep(cfg, s1, clock, delta);
    var s2 := s1.(now := retryAt - x + delta);
    LaterAlone(cfg, s1, id, s2.now);
    StillAlone(cfg, s2, resend);
    TimelyStep(cfg, s2, resend, delta);
    TimelyConcat(cfg, s, acts, delta, s1, [clock], s2);
    end := Apply(cfg, s2, resend);
    TimelyConcat(cfg, s, acts + [clock], delta, s2, [resend], end);
    acts := acts + [clock] + [resend];
  }

  /** One attempt and one backoff, both as long as they can be. */
  lemma Cycle(cfg: Config, s: State, id: Id, k: nat, deadline: real, delta: real, x: real)
    returns (acts: seq<Action>, end: State)
    requires Awaits(cfg, s, id, k, deadline) && k < RETRY_MAX && delta > 0.0 && 0.0 < x <= delta && x <= 1.0
    requires id in Ids(cfg.plan) && TimeoutOf(cfg, id) >= 0.0
    ensures TimelyTo(cfg, s, acts, delta, end) && end.startedAt == s.startedAt
    ensures Awaits(cfg, end, id, k + 1, deadline + 2.0 * delta + BACKOFF_SECONDS[k] - x + TimeoutOf(cfg, id))
  {
    hide Alone, TimelyTo, TimeoutOf;
    var first, mid;
    first, mid := ExpireLate(cfg, s, id, k, deadline, delta);
    var second;
    second, end := ResendLate(cfg, mid, id, k + 1, mid.now + BACKOFF_SECONDS[k], delta, x);
    TimelyConcat(cfg, s, first, delta, mid, second, end);
    acts := first + second;
  }

  /** A subtask just sent can stay pending for its whole span, but for 2x. */
  lemma Prolong(cfg: Config, s: State, id: Id, delta: real, x: real) returns (acts: seq<Action>, end: State)
    requires delta > 0.0 && 0.0 < x <= delta && x <= 1.0 && id in Ids(cfg.plan) && TimeoutOf(cfg, id) >= 0.0
    requires Awaits(cfg, s, id, 0, s.now + TimeoutOf(cfg, id))
    ensures TimelyTo(cfg, s, acts, delta, end) && Alone(cfg, end, id) && Quiescent(cfg, end)
    ensures end.startedAt == s.startedAt && end.now == s.now + Span(cfg, delta, id) - delta - 2.0 * x
  {
    var timeout := TimeoutOf(cfg, id);
    var a, s1 := Cycle(cfg, s, id, 0, s.now + timeout, delta, x);
    var dl1 := s.now + timeout + 2.0 * delta + BACKOFF_SECONDS[0] - x + timeout;
    var b, s2 := Cycle(cfg, s1, id, 1, dl1, delta, x);
    var dl2 := dl1 + 2.0 * delta + BACKOFF_SECONDS[1] - x + timeout;
    var c := WaitUntil(cfg, s2, id, dl2, delta);
    end := s2.(now := dl2);
    TimelyConcat(cfg, s, a, delta, s1, b, s2);
    TimelyConcat(cfg, s, a + b, delta, s2, c, end);
    acts := a + b + c;
  }

  // ----- Reaching a subtask as late as possible -----

  /** Everything but one subtask is to be served at once; that one is untouched
      or was sent at this clock reading. */
  ghost predicate Clearing(cfg: Config, s: State, keep: Id) {
    && Inv(cfg, s) && InOrderSoFar(cfg, s) && keep in s.cells && keep in Ids(cfg.plan)
    && (s.cells[keep] == FRESH_CELL || JustSent(cfg, s, keep))
    && forall x :: x in s.cells && x != keep ==>
      s.cells[x].result.Success? || s.cells[x] == FRESH_CELL || (s.cells[x].pending && s.cells[x].published)
  }

  ghost predicate JustSent(cfg: Config, s: State, id: Id)
    requires id in s.cells && id in Ids(cfg.plan)
  {
    var c := s.cells[id];
    && c.pending && c.published && c.retries == 0 && c.retryAt == None
    && c.deadline == Some(s.now + TimeoutOf(cfg, id))
  }

  /** An unresolved subtask is sent or ready, or waits for one that is. */
  lemma {:induction false} SomeoneToServe(cfg: Config, rank: map<Id, nat>, s: State, id: Id) returns (x: Id)
    requires WellFormed(cfg.plan, rank) && Inv(cfg, s) && id in s.cells && s.cells[id].pending
    ensures x in s.cells && s.cells[x].pending && (s.cells[x].published || Ready(s, Get(cfg.plan, x)))
    decreases rank[id]
  {
    var st := Get(cfg.plan, id);
    if s.cells[id].published || Ready(s, st) {
      x := id;
    } else {
      var d :| d in st.dependsOn && !Resolved(s, d);
      assert d in Ids(cfg.plan) && CellInv(s.cells[d]);
      x := SomeoneToServe(cfg, rank, s, d);
    }
  }

  lemma ServedInOrder(cfg: Config, s: State, a: Action)
    requires Inv(cfg, s) && Coherent(cfg.plan) && InOrderSoFar(cfg, s) && Enabled(cfg, s, a)
    requires a.Send? || (a.Inform? && s.cells[a.id].published)
    ensures InOrderSoFar(cfg, Apply(cfg, s, a))
  {
    var t := Apply(cfg, s, a);
    forall st | st in cfg.plan.subtasks && st.id in t.cells && (t.cells[st.id].published || !t.cells[st.id].pending)
      ensures DepsResolved(t, st)
    {
      assert DepsResolved(s, st);
      forall d | d in st.dependsOn ensures Resolved(t, d) {
        assert Resolved(s, d) && CellInv(s.cells[d]);
      }
    }
  }

  lemma ClearingSend(cfg: Config, s: State, keep: Id, id: Id)
    requires Clearing(cfg, s, keep) && Coherent(cfg.plan) && id in s.cells && id in Ids(cfg.plan)
    requires Ready(s, Get(cfg.plan, id))
    ensures Enabled(cfg, s, Send(id)) && Clearing(cfg, Apply(cfg, s, Send(id)), keep)
  {
    hide InOrderSoFar, JoinMet, DepsResolved, Inv;
    ClearingJoins(cfg, s, keep, Get(cfg.plan, id));
    SendOf(cfg, s, id);
    StepInv(cfg, s, Send(id));
    ServedInOrder(cfg, s, Send(id));
    hide RequestFor;
  }

  lemma SendOf(cfg: Config, s: State, id: Id)
    requires id in s.cells && id in Ids(cfg.plan) && Ready(s, Get(cfg.plan, id)) && JoinMet(s, Get(cfg.plan, id))
    ensures Enabled(cfg, s, Send(id))
  {
  }

  lemma ClearingJoins(cfg: Config, s: State, keep: Id, st: Subtask)
    requires Clearing(cfg, s, keep) && Ready(s, st)
    ensures JoinMet(s, st)
  {
    hide InOrderSoFar;
    forall d | d in st.dependsOn ensures Succeeded(s, d) {
      assert Resolved(s, d) && CellInv(s.cells[d]);
    }
    if st.dependsOn != [] {
      assert st.dependsOn[0] in st.dependsOn;
    }
  }

  lemma ClearingInform(cfg: Config, s: State, keep: Id, id: Id)
    requires Clearing(cfg, s, keep) && Coherent(cfg.plan) && id in s.cells && id != keep
    requires s.cells[id].pending && s.cells[id].published
    ensures Enabled(cfg, s, Inform(id, map[])) && Clearing(cfg, Apply(cfg, s, Inform(id, map[])), keep)
  {
    StepInv(cfg, s, Inform(id, map[]));
    ServedInOrder(cfg, s, Inform(id, map[]));
  }

  lemma Cleared(cfg: Config, rank: map<Id, nat>, s: State, keep: Id)
    requires Clearing(cfg, s, keep) && WellFormed(cfg.plan, rank) && TimeoutOf(cfg, keep) >= 0.0
    requires forall st :: st in cfg.plan.subtasks ==> !Ready(s, st)
    requires forall id :: id in s.cells && id != keep ==> !(s.cells[id].pending && s.cells[id].published)
    ensures Awaits(cfg, s, keep, 0, s.now + TimeoutOf(cfg, keep))
  {
    var x := SomeoneToServe(cfg, rank, s, keep);
    assert Get(cfg.plan, x) in cfg.plan.subtasks;
  }

  /** Serving everything else at once leads to the subtask being awaited alone. */
  lemma {:induction false} Clear(cfg: Config, rank: map<Id, nat>, s: State, keep: Id, delta: real)
    returns (acts: seq<Action>, end: State)
    requires Clearing(cfg, s, keep) && WellFormed(cfg.plan, rank) && TimeoutOf(cfg, keep) >= 0.0
    ensures TimelyTo(cfg, s, acts, delta, end) && end.now == s.now && end.startedAt == s.startedAt
    ensures Awaits(cfg, end, keep, 0, end.now + TimeoutOf(cfg, keep))
    decreases Measure(s)
  {
    hide Inv, Awaits, Enabled, Apply, InOrderSoFar, JustSent, TimeoutOf;
    if id :| id in s.cells && id != keep && s.cells[id].pending && s.cells[id].published {
      ClearingInform(cfg, s, keep, id);
      acts, end := ClearAfter(cfg, rank, s, keep, delta, Inform(id, map[]));
    } else if st :| st in cfg.plan.subtasks && Ready(s, st) {
      ClearingSend(cfg, s, keep, st.id);
      acts, end := ClearAfter(cfg, rank, s, keep, delta, Send(st.id));
    } else {
      Cleared(cfg, rank, s, keep);
      acts, end := [], s;
    }
  }

  lemma {:induction false} ClearAfter(cfg: Config, rank: map<Id, nat>, s: State, keep: Id, delta: real, a: Action)
    returns (acts: seq<Action>, end: State)
    requires Inv(cfg, s) && !a.Sample? && Enabled(cfg, s, a) && keep in Ids(cfg.plan)
    requires Clearing(cfg, Apply(cfg, s, a), keep) && WellFormed(cfg.plan, rank) && TimeoutOf(cfg, keep) >= 0.0
    ensures TimelyTo(cfg, s, acts, delta, end) && end.now == s.now && end.startedAt == s.startedAt
    ensures Awaits(cfg, end, keep, 0, end.now + TimeoutOf(cfg, keep))
    decreases Measure(s), 0
  {
    StepMeasure(cfg, s, a);
    TimelyStep(cfg, s, a, delta);
    var rest;
    rest, end := Clear(cfg, rank, Apply(cfg, s, a), keep, delta);
    TimelyConcat(cfg, s, [a], delta, Apply(cfg, s, a), rest, end);
    acts := [a] + rest;
  }

  /** A dependency at the end of the longest path. */
  lemma {:induction false} CriticalDependency(cfg: Config, rank: map<Id, nat>, delta: real, deps: seq<Id>, level: nat)
    returns (d: Id)
    requires WellFormed(cfg.plan, rank) && TimeoutsNonNegative(cfg) && delta >= 0.0 && deps != []
    requires forall x :: x in deps ==> x in Ids(cfg.plan) && rank[x] < level
    ensures d in deps && FinishBy(cfg, rank, delta, d) == StartBy(cfg, rank, delta, deps, level)
    decreases |deps|
  {
    d := deps[0];
    var st := Get(cfg.plan, d);
    assert TimeoutFor(cfg.timeouts, st.agent) >= 0.0;
    if |deps| > 1 {
      assert forall x :: x in deps[1..] ==> x in deps;
      if FinishBy(cfg, rank, delta, d) <= StartBy(cfg, rank, delta, deps[1..], level) {
        d := CriticalDependency(cfg, rank, delta, deps[1..], level);
      }
    }
  }

  lemma InitialClearing(cfg: Config, rank: map<Id, nat>, t: real, keep: Id)
    requires WellFormed(cfg.plan, rank) && keep in Ids(cfg.plan)
    ensures Clearing(cfg, Initial(cfg, map[], t), keep)
  {
    InitialInv(cfg, map[], t);
  }

  /** The awaited subtask answers late; then everything that does not wait for
      the next one of the path is served at once. */
  lemma NextOfPath(cfg: Config, rank: map<Id, nat>, s: State, d: Id, id: Id, delta: real) returns (acts: seq<Action>, end: State)
    requires WellFormed(cfg.plan, rank) && Alone(cfg, s, d) && Quiescent(cfg, s) && delta > 0.0
    requires id in Ids(cfg.plan) && d in Get(cfg.plan, id).dependsOn && TimeoutOf(cfg, id) >= 0.0
    ensures TimelyTo(cfg, s, acts, delta, end) && end.now == s.now + delta && end.startedAt == s.startedAt
    ensures Awaits(cfg, end, id, 0, end.now + TimeoutOf(cfg, id))
  {
    var clock, answer := Sample(s.now + delta), Inform(d, map[]);
    var s1 := s.(now := s.now + delta);
    TimelyStep(cfg, s, clock, delta);
    LaterAlone(cfg, s, d, s1.now);
    TimelyStep(cfg, s1, answer, delta);
    var s2 := Apply(cfg, s1, answer);
    AnsweredIsClearing(cfg, rank, s1, d, id);
    TimelyConcat(cfg, s, [clock], delta, s1, [answer], s2);
    acts, end := Clear(cfg, rank, s2, id, delta);
    TimelyConcat(cfg, s, [clock] + [answer], delta, s2, acts, end);
    acts := [clock] + [answer] + acts;
  }

  lemma AnsweredIsClearing(cfg: Config, rank: map<Id, nat>, s: State, d: Id, id: Id)
    requires WellFormed(cfg.plan, rank) && Alone(cfg, s, d)
    requires id in Ids(cfg.plan) && d in Get(cfg.plan, id).dependsOn
    ensures Enabled(cfg, s, Inform(d, map[])) && Clearing(cfg, Apply(cfg, s, Inform(d, map[])), id)
  {
    var st := Get(cfg.plan, id);
    assert st in cfg.plan.subtasks && st.id == id && rank[d] < rank[id];
    StepInv(cfg, s, Inform(d, map[]));
    ServedInOrder(cfg, s, Inform(d, map[]));
    assert CellInv(s.cells[d]) && CellInv(s.cells[id]) && !Resolved(s, d);
    assert s.cells[id] == FRESH_CELL;
  }

  lemma Small(delta: real, eps: real) returns (x: real)
    requires delta > 0.0 && eps > 0.0
    ensures 0.0 < x <= delta && x <= 1.0 && 2.0 * x <= eps
  {
    x := if eps / 2.0 <= delta then eps / 2.0 else delta;
    if x > 1.0 {
      x := 1.0;
    }
  }

  /** A run that gets to a subtask as late as its critical path allows, but for eps. */
  lemma {:induction false} Latest(cfg: Config, rank: map<Id, nat>, delta: real, t: real, id: Id, eps: real)
    returns (acts: seq<Action>, end: State)
    requires WellFormed(cfg.plan, rank) && TimeoutsNonNegative(cfg) && delta > 0.0 && eps > 0.0 && id in Ids(cfg.plan)
    ensures TimelyTo(cfg, Initial(cfg, map[], t), acts, delta, end) && end.startedAt == t
    ensures Awaits(cfg, end, id, 0, end.now + TimeoutOf(cfg, id)) && TimeoutOf(cfg, id) >= 0.0
    ensures end.now >= t + ReadyBy(cfg, rank, delta, id) - eps
    decreases rank[id]
  {
    hide *;
    TimeoutIsNonNegative(cfg, id);
    if Get(cfg.plan, id).dependsOn == [] {
      acts, end := LatestAtOnce(cfg, rank, delta, t, id);
    } else {
      acts, end := LatestAfter(cfg, rank, delta, t, id, eps);
    }
  }

  /** A subtask without dependencies is sent at the start. */
  lemma LatestAtOnce(cfg: Config, rank: map<Id, nat>, delta: real, t: real, id: Id) returns (acts: seq<Action>, end: State)
    requires WellFormed(cfg.plan, rank) && id in Ids(cfg.plan) && TimeoutOf(cfg, id) >= 0.0
    requires Get(cfg.plan, id).dependsOn == []
    ensures TimelyTo(cfg, Initial(cfg, map[], t), acts, delta, end) && end.startedAt == t && end.now == t
    ensures Awaits(cfg, end, id, 0, end.now + TimeoutOf(cfg, id))
    ensures ReadyBy(cfg, rank, delta, id) == 0.0
  {
    hide TimelyTo, Awaits, Clearing, Inv;
    InitialClearing(cfg, rank, t, id);
    acts, end := Clear(cfg, rank, Initial(cfg, map[], t), id, delta);
  }

  lemma TimeoutIsNonNegative(cfg: Config, id: Id)
    requires TimeoutsNonNegative(cfg) && id in Ids(cfg.plan)
    ensures TimeoutOf(cfg, id) >= 0.0
  {
    assert Get(cfg.plan, id) in cfg.plan.subtasks;
  }

  lemma {:induction false} LatestAfter(cfg: Config, rank: map<Id, nat>, delta: real, t: real, id: Id, eps: real)
    returns (acts: seq<Action>, end: State)
    requires WellFormed(cfg.plan, rank) && TimeoutsNonNegative(cfg) && delta > 0.0 && eps > 0.0 && id in Ids(cfg.plan)
    requires Get(cfg.plan, id).dependsOn != [] && TimeoutOf(cfg, id) >= 0.0
    ensures TimelyTo(cfg, Initial(cfg, map[], t), acts, delta, end) && end.startedAt == t
    ensures Awaits(cfg, end, id, 0, end.now + TimeoutOf(cfg, id))
    ensures end.now >= t + ReadyBy(cfg, rank, delta, id) - eps
    decreases rank[id], 0
  {
    var d := CriticalDependency(cfg, rank, delta, Get(cfg.plan, id).dependsOn, rank[id]);
    assert FinishBy(cfg, rank, delta, d) == ReadyBy(cfg, rank, delta, id);
    hide TimelyTo, Awaits, Inv, Initial, TimeoutsNonNegative, Alone, Quiescent, StartBy;
    var init := Initial(cfg, map[], t);
    var s1, s2, more, last;
    acts, s1 := Latest(cfg, rank, delta, t, d, eps / 2.0);
    var x := Small(delta, eps / 2.0);
    more, s2 := Prolong(cfg, s1, d, delta, x);
    last, end := NextOfPath(cfg, rank, s2, d, id, delta);
    TimelyConcat(cfg, init, acts, delta, s1, more, s2);
    TimelyConcat(cfg, init, acts + more, delta, s2, last, end);
    acts := acts + more + last;
  }

  /** Below the critical path of some subtask a deadline cuts it off in some run,
      without a refuse, a crash or an exhausted budget. */
  lemma ShortDeadlineCutsOff(cfg: Config, rank: map<Id, nat>, delta: real, t: real, id: Id, deadline: real)
    returns (acts: seq<Action>, end: State)
    requires WellFormed(cfg.plan, rank) && TimeoutsNonNegative(cfg) && delta > 0.0 && id in Ids(cfg.plan)
    requires deadline < FinishBy(cfg, rank, delta, id) - delta
    ensures TimelyTo(cfg, Initial(cfg, map[], t), acts, delta, end) && Quiescent(cfg, end)
    ensures id in end.cells && end.cells[id].pending && end.startedAt == t && end.now - t > deadline
    ensures forall x :: x in end.cells ==> end.cells[x].result != Failure
  {
    var eps := (FinishBy(cfg, rank, delta, id) - delta - deadline) / 3.0;
    var mid, more;
    acts, mid := Latest(cfg, rank, delta, t, id, eps);
    var x := Small(delta, eps);
    more, end := Prolong(cfg, mid, id, delta, x);
    TimelyConcat(cfg, Initial(cfg, map[], t), acts, delta, mid, more, end);
    acts := acts + more;
    assert CellInv(end.cells[id]);
  }

  /** No timely run of a submitted task is at rest with work pending after the deadline. */
  ghost predicate NeverCutsOff(cfg: Config, delta: real, t: real, deadline: real) {
    forall acts, end :: TimelyTo(cfg, Initial(cfg, map[], t), acts, delta, end) && Quiescent(cfg, end) && HasPending(end)
      ==> end.now - end.startedAt <= deadline
  }

  /** The global deadline, exactly: it never cuts off a task with work pending if
      and only if it is at or past every critical path. */
  lemma NeverCutsOffIff(cfg: Config, rank: map<Id, nat>, delta: real, t: real, deadline: real)
    requires WellFormed(cfg.plan, rank) && TimeoutsNonNegative(cfg) && delta > 0.0
    ensures NeverCutsOff(cfg, delta, t, deadline) <==> Sufficient(cfg, rank, delta, deadline)
  {
    if Sufficient(cfg, rank, delta, deadline) {
      forall acts, end | TimelyTo(cfg, Initial(cfg, map[], t), acts, delta, end) && Quiescent(cfg, end) && HasPending(end)
        ensures end.now - end.startedAt <= deadline
      {
        SufficientNeverCutsOff(cfg, rank, delta, map[], t, acts, end, deadline);
      }
    } else {
      var id :| id in Ids(cfg.plan) && FinishBy(cfg, rank, delta, id) - delta > deadline;
      var acts, end := ShortDeadlineCutsOff(cfg, rank, delta, t, id, deadline);
    }
  }

  const CONFIGURED_DEADLINE: real := 1800.0

  /** The configured deadline cuts off transcription in some run of every task
      that asks for one, however often the clock is read. */
  lemma ConfiguredDeadlineCutsOff(cfg: Config, delta: real, t: real, st: Subtask) returns (acts: seq<Action>, end: State)
    requires IsDefault(cfg) && delta > 0.0 && st in cfg.plan.subtasks && st.operation == F1
    ensures TimelyTo(cfg, Initial(cfg, map[], t), acts, delta, end) && Quiescent(cfg, end)
    ensures st.id in end.cells && end.cells[st.id].pending && end.startedAt == t && end.now - t > CONFIGURED_DEADLINE
    ensures forall x :: x in end.cells ==> end.cells[x].result != Failure
  {
    var rank := PlanRank(cfg.task);
    GetIsEntry(cfg.plan, rank, st);
    BuildPlanEntries(cfg.task, st);
    DefaultsNonNegative(cfg);
    assert TimeoutOf(cfg, st.id) == AgentTimeout(Transcriber) == 600.0;
    acts, end := ShortDeadlineCutsOff(cfg, rank, delta, t, st.id, CONFIGURED_DEADLINE);
  }

  lemma DefaultsNonNegative(cfg: Config)
    requires cfg.timeouts == map[]
    ensures TimeoutsNonNegative(cfg)
  {
  }
}
