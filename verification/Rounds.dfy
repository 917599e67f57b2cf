/** What `_advance` computes, loop by loop: one round visits the subtasks in plan
    order, then the passed deadlines, then the due retries; rounds repeat until
    nothing is left to do. */
module Rounds {
  import opened Basics
  import opened Plans
  import opened Payloads
  import opened Retry
  import opened Dispatch
  import opened Invariants
  import opened Budget
  import opened Confluence

  // ----- The loop over the plan -----

  /** A turn of the loop: a ready subtask is sent or fails with its upstreams. */
  ghost function Visited(cfg: Config, s: State, st: Subtask): State
    requires Coherent(cfg.plan) && st in cfg.plan.subtasks
  {
    if !Ready(s, st) then s
    else if JoinMet(s, st) then Apply(cfg, s, Send(st.id))
    else Apply(cfg, s, Skip(st.id))
  }

  /** After the first n entries of the plan. */
  ghost function Swept(cfg: Config, s: State, n: nat): State
    requires Coherent(cfg.plan) && n <= |cfg.plan.subtasks|
  {
    if n == 0 then s else Visited(cfg, Swept(cfg, s, n - 1), cfg.plan.subtasks[n - 1])
  }

  lemma VisitIsStep(cfg: Config, s: State, st: Subtask) returns (a: Action)
    requires Coherent(cfg.plan) && st in cfg.plan.subtasks && Ready(s, st)
    ensures IsAdvance(a) && Enabled(cfg, s, a) && Visited(cfg, s, st) == Apply(cfg, s, a)
  {
    a := if JoinMet(s, st) then Send(st.id) else Skip(st.id);
  }

  lemma NothingAdvanced(cfg: Config, s: State)
    ensures Advances(cfg, s, [], s)
  {
  }

  lemma {:induction false} SweepAdvances(cfg: Config, s: State, n: nat) returns (acts: seq<Action>)
    requires Coherent(cfg.plan) && n <= |cfg.plan.subtasks|
    ensures Advances(cfg, s, acts, Swept(cfg, s, n))
    ensures acts == [] ==> Swept(cfg, s, n) == s && forall k :: 0 <= k < n ==> !Ready(s, cfg.plan.subtasks[k])
  {
    hide Enabled, Apply, Legal, Exec, Ready, JoinMet;
    if n == 0 {
      acts := [];
      NothingAdvanced(cfg, s);
    } else {
      acts := SweepAdvances(cfg, s, n - 1);
      var t, st := Swept(cfg, s, n - 1), cfg.plan.subtasks[n - 1];
      if Ready(t, st) {
        var a := VisitIsStep(cfg, t, st);
        AdvancesExtend(cfg, s, acts, t, a);
        acts := acts + [a];
      }
    }
  }

  lemma {:induction false} NothingSwept(cfg: Config, s: State, n: nat)
    requires Coherent(cfg.plan) && n <= |cfg.plan.subtasks|
    requires forall k :: 0 <= k < n ==> !Ready(s, cfg.plan.subtasks[k])
    ensures Swept(cfg, s, n) == s
  {
    if n > 0 {
      NothingSwept(cfg, s, n - 1);
    }
  }

  // ----- The loops over the timers -----

  function ExpiredIds(s: State): set<Id> {
    set id | id in s.cells && Expired(s.cells[id], s.now)
  }

  function DueIds(s: State): set<Id> {
    set id | id in s.cells && Due(s.cells[id], s.now)
  }

  /** The attempts of the given subtasks have timed out. */
  ghost function ExpireIn(s: State, ids: set<Id>): State {
    s.(cells := map id | id in s.cells ::
         if id in ids then RetriedOrFailed(s.cells[id].(deadline := None), s.now, "timeout") else s.cells[id])
  }

  /** The given subtasks have been sent again. */
  ghost function ResendIn(cfg: Config, s: State, ids: set<Id>): State
    requires s.cells.Keys == Ids(cfg.plan)
  {
    s.(cells := map id | id in s.cells :: if id in ids then Resent(cfg, s, id) else s.cells[id],
       messagesExchanged := s.messagesExchanged + |ids|)
  }

  ghost function Resent(cfg: Config, s: State, id: Id): Cell
    requires id in s.cells && id in Ids(cfg.plan)
  {
    NewCell(cfg, s, Republish(id))
  }

  lemma ExpireOneMore(cfg: Config, s: State, ids: set<Id>, id: Id)
    requires Inv(cfg, s) && id in ExpiredIds(s) && id !in ids
    ensures Enabled(cfg, ExpireIn(s, ids), Expire(id))
    ensures Apply(cfg, ExpireIn(s, ids), Expire(id)) == ExpireIn(s, ids + {id})
    ensures ExpireIn(s, {}) == s
  {
    assert ExpireIn(s, {}).cells == s.cells;
    assert Apply(cfg, ExpireIn(s, ids), Expire(id)).cells == ExpireIn(s, ids + {id}).cells;
  }

  /** Sending again changes no result, so every request is built from the same. */
  lemma ResultsAfterResend(cfg: Config, s: State, ids: set<Id>)
    requires s.cells.Keys == Ids(cfg.plan)
    ensures ResultsOf(ResendIn(cfg, s, ids)) == ResultsOf(s)
  {
    var t := ResendIn(cfg, s, ids);
    assert forall id :: id in s.cells ==> t.cells[id].result == s.cells[id].result;
    assert ResultsOf(t).Keys == ResultsOf(s).Keys;
  }

  lemma ResendOneMore(cfg: Config, s: State, ids: set<Id>, id: Id)
    requires Inv(cfg, s) && id in DueIds(s) && id !in ids
    ensures Enabled(cfg, ResendIn(cfg, s, ids), Republish(id))
    ensures Apply(cfg, ResendIn(cfg, s, ids), Republish(id)) == ResendIn(cfg, s, ids + {id})
    ensures ResendIn(cfg, s, {}) == s
  {
    assert ResendIn(cfg, s, {}).cells == s.cells;
    ResultsAfterResend(cfg, s, ids);
    var t := ResendIn(cfg, s, ids);
    assert NewCell(cfg, t, Republish(id)) == Resent(cfg, s, id);
    assert Apply(cfg, t, Republish(id)).cells == ResendIn(cfg, s, ids + {id}).cells;
  }

  lemma {:induction false} ExpiryAdvances(cfg: Config, s: State, ids: set<Id>) returns (acts: seq<Action>)
    requires Inv(cfg, s) && ids <= ExpiredIds(s)
    ensures Advances(cfg, s, acts, ExpireIn(s, ids)) && (acts == [] ==> ids == {})
    decreases ids
  {
    if ids == {} {
      acts := [];
      assert ExpireIn(s, {}).cells == s.cells;
    } else {
      var id :| id in ids;
      acts := ExpiryAdvances(cfg, s, ids - {id});
      ExpireOneMore(cfg, s, ids - {id}, id);
      assert ids - {id} + {id} == ids;
      AdvancesExtend(cfg, s, acts, ExpireIn(s, ids - {id}), Expire(id));
      acts := acts + [Expire(id)];
    }
  }

  lemma {:induction false} ResendAdvances(cfg: Config, s: State, ids: set<Id>) returns (acts: seq<Action>)
    requires Inv(cfg, s) && ids <= DueIds(s)
    ensures Advances(cfg, s, acts, ResendIn(cfg, s, ids)) && (acts == [] ==> ids == {})
    decreases ids
  {
    hide Enabled, NewCell, Apply, ResendIn, Advances, DueIds;
    if ids == {} {
      acts := [];
      NothingResent(cfg, s);
    } else {
      var id :| id in ids;
      acts := ResendAdvances(cfg, s, ids - {id});
      ResendOneMore(cfg, s, ids - {id}, id);
      assert ids - {id} + {id} == ids;
      AdvancesExtend(cfg, s, acts, ResendIn(cfg, s, ids - {id}), Republish(id));
      acts := acts + [Republish(id)];
    }
  }

  lemma NothingResent(cfg: Config, s: State)
    requires s.cells.Keys == Ids(cfg.plan)
    ensures Advances(cfg, s, [], ResendIn(cfg, s, {}))
  {
    assert ResendIn(cfg, s, {}).cells == s.cells;
  }

  /** What the clock makes of a deadline: once it is past, the attempt counts as
      failed, and the subtask with it if that was the third. */
  predicate TimedOut(c: Cell, now: real, d: Cell) {
    if c.deadline.Some? && now > c.deadline.value then
      if c.retries < 2 then
        d == c.(deadline := None, retries := c.retries + 1, failReason := Some("timeout"),
                retryAt := Some(now + (if c.retries == 0 then 1.0 else 4.0)))
      else
        d == c.(deadline := None, retryAt := None, failReason := Some("timeout"), result := Failure,
                resolvedAt := Some(now), pending := false, published := true)
    else d == c
  }

  /** What it makes of a backoff: once it is over, the subtask is sent again. */
  predicate SentAgain(timeouts: map<AgentName, real>, agent: AgentName, c: Cell, now: real, d: Cell) {
    if c.retryAt.Some? && now >= c.retryAt.value then
      && |d.sent| == |c.sent| + 1 && d.sent[..|c.sent|] == c.sent && d.sent[|c.sent|].at == now
      && d.deadline.Some? && Lasts(timeouts, agent, d.deadline.value - now)
      && d == c.(retryAt := None, published := true, deadline := d.deadline, sent := d.sent,
                 firstAttemptAt := if c.firstAttemptAt.Some? then c.firstAttemptAt else Some(now))
    else d == c
  }

  lemma ExpiryByTheClock(s: State, id: Id)
    requires id in s.cells
    ensures id in AllExpired(s).cells && TimedOut(s.cells[id], s.now, AllExpired(s).cells[id])
  {
  }

  lemma ResendByTheClock(cfg: Config, s: State, id: Id)
    requires s.cells.Keys == Ids(cfg.plan) && id in s.cells
    ensures var t := ResendIn(cfg, s, DueIds(s));
      id in t.cells && SentAgain(cfg.timeouts, Get(cfg.plan, id).agent, s.cells[id], s.now, t.cells[id])
  {
    hide PayloadFor, Lasts;
  }

  // ----- Rounds -----

  ghost function AllSwept(cfg: Config, s: State): State
    requires Coherent(cfg.plan)
  {
    Swept(cfg, s, |cfg.plan.subtasks|)
  }

  ghost function AllExpired(s: State): State {
    ExpireIn(s, ExpiredIds(s))
  }

  /** The body of the `while` loop of `_advance`. */
  ghost function RoundOf(cfg: Config, s: State): State
    requires Coherent(cfg.plan) && Inv(cfg, s)
  {
    var swept := AllSwept(cfg, s);
    var expired := AllExpired(swept);
    RoundKeepsKeys(cfg, s);
    ResendIn(cfg, expired, DueIds(expired))
  }

  lemma RoundKeepsKeys(cfg: Config, s: State)
    requires Coherent(cfg.plan) && Inv(cfg, s)
    ensures Inv(cfg, AllSwept(cfg, s)) && Inv(cfg, AllExpired(AllSwept(cfg, s)))
  {
    var acts := SweepAdvances(cfg, s, |cfg.plan.subtasks|);
    RunInv(cfg, s, acts);
    var swept := AllSwept(cfg, s);
    var more := ExpiryAdvances(cfg, swept, ExpiredIds(swept));
    RunInv(cfg, swept, more);
  }

  lemma RoundAdvances(cfg: Config, s: State) returns (acts: seq<Action>)
    requires Coherent(cfg.plan) && Inv(cfg, s)
    ensures Advances(cfg, s, acts, RoundOf(cfg, s)) && Inv(cfg, RoundOf(cfg, s))
    ensures acts == [] ==> Quiescent(cfg, s)
  {
    RoundKeepsKeys(cfg, s);
    var swept := AllSwept(cfg, s);
    var expired := AllExpired(swept);
    var a := SweepAdvances(cfg, s, |cfg.plan.subtasks|);
    var b := ExpiryAdvances(cfg, swept, ExpiredIds(swept));
    var c := ResendAdvances(cfg, expired, DueIds(expired));
    AdvancesConcat(cfg, s, a, swept, b, expired);
    AdvancesConcat(cfg, s, a + b, expired, c, RoundOf(cfg, s));
    acts := a + b + c;
    RunInv(cfg, s, acts);
    if acts == [] {
      assert expired.cells == s.cells;
    }
  }

  lemma RoundLowers(cfg: Config, s: State)
    requires Coherent(cfg.plan) && Inv(cfg, s) && !Quiescent(cfg, s)
    ensures Inv(cfg, RoundOf(cfg, s)) && Measure(RoundOf(cfg, s)) < Measure(s)
  {
    var acts := RoundAdvances(cfg, s);
    RunMeasure(cfg, s, acts);
    assert IsAdvance(acts[0]);
  }

  /** At rest a round changes nothing. */
  lemma RestIsFixed(cfg: Config, s: State)
    requires Coherent(cfg.plan) && Inv(cfg, s) && Quiescent(cfg, s)
    ensures RoundOf(cfg, s) == s && AllSwept(cfg, s) == s && ExpiredIds(s) == {} && DueIds(s) == {}
  {
    NothingSwept(cfg, s, |cfg.plan.subtasks|);
    assert ExpiredIds(s) == {} && DueIds(s) == {};
    NothingDone(cfg, s);
  }

  lemma NothingDone(cfg: Config, s: State)
    requires s.cells.Keys == Ids(cfg.plan)
    ensures ExpireIn(s, {}) == s && ResendIn(cfg, s, {}) == s
  {
    assert ExpireIn(s, {}).cells == s.cells && ResendIn(cfg, s, {}).cells == s.cells;
  }

  /** The state `_advance` leaves behind: a function of the state it starts from,
      whatever replies have led there. */
  ghost function Advanced(cfg: Config, s: State): State
    requires Coherent(cfg.plan) && Inv(cfg, s)
    decreases Measure(s)
  {
    if Quiescent(cfg, s) then s
    else
      RoundLowers(cfg, s);
      Advanced(cfg, RoundOf(cfg, s))
  }

  /** It is one of the states that steps of `_advance` lead to, and at rest. */
  lemma {:induction false} AdvancedSettles(cfg: Config, s: State) returns (acts: seq<Action>)
    requires Coherent(cfg.plan) && Inv(cfg, s)
    ensures Settles(cfg, s, acts, Advanced(cfg, s)) && Inv(cfg, Advanced(cfg, s))
    decreases Measure(s)
  {
    if Quiescent(cfg, s) {
      acts := [];
    } else {
      RoundLowers(cfg, s);
      var first := RoundAdvances(cfg, s);
      var rest := AdvancedSettles(cfg, RoundOf(cfg, s));
      AdvancesConcat(cfg, s, first, RoundOf(cfg, s), rest, Advanced(cfg, s));
      acts := first + rest;
    }
  }

  lemma AdvancedNow(cfg: Config, s: State)
    requires Coherent(cfg.plan) && Inv(cfg, s)
    ensures Advanced(cfg, s).now == s.now && Advanced(cfg, s).startedAt == s.startedAt
  {
    var acts := AdvancedSettles(cfg, s);
    AdvancesNow(cfg, s, acts, Advanced(cfg, s));
  }

  lemma {:induction false} AdvancesNow(cfg: Config, s: State, acts: seq<Action>, end: State)
    requires Advances(cfg, s, acts, end)
    ensures end.now == s.now && end.startedAt == s.startedAt
    decreases |acts|
  {
    if acts != [] {
      assert acts == [acts[0]] + acts[1..];
      AdvancesNow(cfg, Apply(cfg, s, acts[0]), acts[1..], end);
    }
  }

  /** Where the order does not show, any way to rest leads to that state. */
  lemma AnyOrderGivesAdvanced(cfg: Config, s: State, acts: seq<Action>, end: State)
    requires Coherent(cfg.plan) && Inv(cfg, s) && OrderIndependent(cfg, s) && Settles(cfg, s, acts, end)
    ensures end == Advanced(cfg, s)
  {
    var p := AdvancedSettles(cfg, s);
  }
}
