/** When the fixed point of `_advance` depends on the order in which subtasks and
    timers are visited. */
module Confluence {
  import opened Basics
  import opened Plans
  import opened Payloads
  import opened Dispatch
  import opened Invariants
  import opened Budget

  predicate IsAdvance(a: Action) {
    a.Send? || a.Skip? || a.Expire? || a.Republish?
  }

  predicate AllAdvance(acts: seq<Action>) {
    forall i :: 0 <= i < |acts| ==> IsAdvance(acts[i])
  }

  lemma ResultsAfterUpdate(s: State, t: State, id: Id, c: Cell)
    requires id in s.cells && s.cells[id].result == Open && !c.result.Success?
    requires t.cells == s.cells[id := c]
    ensures id !in ResultsOf(s)
    ensures ResultsOf(t) == if c.result == Open then ResultsOf(s) else ResultsOf(s)[id := None]
  {
    var r := if c.result == Open then ResultsOf(s) else ResultsOf(s)[id := None];
    assert forall x :: x in ResultsOf(t) <==> x in r;
    assert forall x :: x in r ==> ResultsOf(t)[x] == r[x];
  }

  lemma AdvanceNeverSucceeds(cfg: Config, s: State, a: Action)
    requires Inv(cfg, s) && Enabled(cfg, s, a) && IsAdvance(a)
    ensures s.cells[a.id].pending && s.cells[a.id].result == Open
    ensures !NewCell(cfg, s, a).result.Success?
  {
    assert CellInv(s.cells[a.id]);
  }

  lemma RequestPersists(cfg: Config, s: State, a: Action, st: Subtask)
    requires Inv(cfg, s) && Enabled(cfg, s, a) && IsAdvance(a)
    ensures RequestFor(cfg, Apply(cfg, s, a), st) == RequestFor(cfg, s, st)
  {
    AdvanceNeverSucceeds(cfg, s, a);
    ResultsAfterUpdate(s, Apply(cfg, s, a), a.id, NewCell(cfg, s, a));
    PayloadIgnoresFailures(st, cfg.task, ResultsOf(s), a.id);
  }

  lemma GuardPersists(cfg: Config, s: State, a: Action, st: Subtask)
    requires Inv(cfg, s) && Enabled(cfg, s, a) && IsAdvance(a) && a.id != st.id
    requires Ready(s, st)
    ensures Ready(Apply(cfg, s, a), st)
    ensures JoinMet(Apply(cfg, s, a), st) <==> JoinMet(s, st)
    ensures SkipReason(Apply(cfg, s, a), st) == SkipReason(s, st)
  {
    var t := Apply(cfg, s, a);
    assert CellInv(s.cells[a.id]);
    assert !Resolved(s, a.id);
    assert forall d :: d in st.dependsOn ==> d != a.id && t.cells[d] == s.cells[d];
    assert forall d :: d in st.dependsOn ==> (Succeeded(t, d) <==> Succeeded(s, d));
  }

  /** What an advance action leaves to an action on another subtask. */
  lemma OtherActionPersists(cfg: Config, s: State, a: Action, b: Action)
    requires Inv(cfg, s) && Enabled(cfg, s, a) && Enabled(cfg, s, b)
    requires IsAdvance(a) && IsAdvance(b) && a.id != b.id
    ensures Enabled(cfg, Apply(cfg, s, a), b)
    ensures NewCell(cfg, Apply(cfg, s, a), b) == NewCell(cfg, s, b)
  {
    var st := Get(cfg.plan, b.id);
    RequestPersists(cfg, s, a, st);
    if b.Send? || b.Skip? {
      GuardPersists(cfg, s, a, st);
    }
  }

  lemma UpdatesCommute(m: map<Id, Cell>, i: Id, ci: Cell, j: Id, cj: Cell)
    requires i != j
    ensures m[i := ci][j := cj] == m[j := cj][i := ci]
  {
  }

  /** Advance actions on different subtasks commute. */
  lemma Diamond(cfg: Config, s: State, a: Action, b: Action)
    requires Inv(cfg, s) && !a.Sample? && !b.Sample? && a.id != b.id
    requires Enabled(cfg, s, a) && Enabled(cfg, s, b) && IsAdvance(a) && IsAdvance(b)
    ensures Enabled(cfg, Apply(cfg, s, a), b) && Enabled(cfg, Apply(cfg, s, b), a)
    ensures Apply(cfg, Apply(cfg, s, a), b) == Apply(cfg, Apply(cfg, s, b), a)
  {
    hide NewCell, Inv, Enabled;
    OtherActionPersists(cfg, s, a, b);
    OtherActionPersists(cfg, s, b, a);
    UpdatesCommute(s.cells, a.id, NewCell(cfg, s, a), b.id, NewCell(cfg, s, b));
  }

  lemma QuiescentDisablesAdvance(cfg: Config, s: State, a: Action)
    requires IsAdvance(a) && Enabled(cfg, s, a)
    ensures !Quiescent(cfg, s)
  {
  }

  lemma Prepend(cfg: Config, s: State, b: Action, tail: seq<Action>) returns (acts: seq<Action>)
    requires Enabled(cfg, s, b) && Legal(cfg, Apply(cfg, s, b), tail)
    ensures acts == [b] + tail && Legal(cfg, s, acts)
    ensures Exec(cfg, s, acts) == Exec(cfg, Apply(cfg, s, b), tail)
  {
    acts := [b] + tail;
    assert acts[1..] == tail;
  }

  /** A run that is made of advance actions. */
  ghost predicate Advances(cfg: Config, s: State, acts: seq<Action>, end: State) {
    AllAdvance(acts) && Legal(cfg, s, acts) && Exec(cfg, s, acts) == end
  }

  /** A run to quiescence that is made of advance actions. */
  ghost predicate Settles(cfg: Config, s: State, acts: seq<Action>, end: State) {
    Advances(cfg, s, acts, end) && Quiescent(cfg, end)
  }

  lemma AdvancesExtend(cfg: Config, s: State, acts: seq<Action>, t: State, a: Action)
    requires Advances(cfg, s, acts, t) && IsAdvance(a) && Enabled(cfg, t, a)
    ensures Advances(cfg, s, acts + [a], Apply(cfg, t, a))
  {
    LegalExtend(cfg, s, acts, a);
  }

  lemma AdvancesConcat(cfg: Config, s: State, p: seq<Action>, t: State, q: seq<Action>, u: State)
    requires Advances(cfg, s, p, t) && Advances(cfg, t, q, u)
    ensures Advances(cfg, s, p + q, u)
  {
    LegalConcat(cfg, s, p, q);
  }

  lemma SettlesTail(cfg: Config, s: State, acts: seq<Action>, end: State)
    requires acts != [] && Settles(cfg, s, acts, end)
    ensures IsAdvance(acts[0]) && Enabled(cfg, s, acts[0])
    ensures Settles(cfg, Apply(cfg, s, acts[0]), acts[1..], end)
    ensures multiset(acts) == multiset{acts[0]} + multiset(acts[1..])
  {
    assert acts == [acts[0]] + acts[1..];
  }

  lemma SettlesPrepend(cfg: Config, s: State, b: Action, tail: seq<Action>, end: State)
    requires IsAdvance(b) && Enabled(cfg, s, b) && Settles(cfg, Apply(cfg, s, b), tail, end)
    ensures Settles(cfg, s, [b] + tail, end)
  {
    var acts := Prepend(cfg, s, b, tail);
  }

  // ----- Order independence -----

  /** Two different steps of `_advance` are open to one subtask. */
  ghost predicate Torn(cfg: Config, s: State) {
    exists a, b :: IsAdvance(a) && IsAdvance(b) && a != b && a.id == b.id && Enabled(cfg, s, a) && Enabled(cfg, s, b)
  }

  /** No state that advancing passes through is torn. */
  ghost predicate ConflictFree(cfg: Config, s: State) {
    forall acts, u :: Advances(cfg, s, acts, u) ==> !Torn(cfg, u)
  }

  /** Any two ways of advancing to quiescence perform the same actions, each
      once, and end in the same state: the same requests, failures, timers and
      counters. */
  ghost predicate OrderIndependent(cfg: Config, s: State) {
    forall p, a, q, b :: Settles(cfg, s, p, a) && Settles(cfg, s, q, b) ==> a == b && multiset(p) == multiset(q)
  }

  lemma StepConflictFree(cfg: Config, s: State, a: Action)
    requires ConflictFree(cfg, s) && IsAdvance(a) && Enabled(cfg, s, a)
    ensures ConflictFree(cfg, Apply(cfg, s, a))
  {
    forall acts, u | Advances(cfg, Apply(cfg, s, a), acts, u) ensures !Torn(cfg, u) {
      var all := Prepend(cfg, s, a, acts);
      assert Advances(cfg, s, all, u);
    }
  }

  lemma OneActionPerSubtask(cfg: Config, s: State, a: Action, b: Action)
    requires ConflictFree(cfg, s)
    requires Enabled(cfg, s, a) && Enabled(cfg, s, b) && IsAdvance(a) && IsAdvance(b) && a.id == b.id
    ensures a == b
  {
    assert Advances(cfg, s, [], s);
  }

  /** In a run to quiescence, any action enabled at the start can come first. */
  lemma {:induction false} MoveToFront(cfg: Config, s: State, acts: seq<Action>, end: State, a: Action)
    returns (rest: seq<Action>)
    requires Inv(cfg, s) && ConflictFree(cfg, s) && Enabled(cfg, s, a) && IsAdvance(a)
    requires Settles(cfg, s, acts, end)
    ensures |rest| < |acts| && multiset(rest) + multiset{a} == multiset(acts)
    ensures Settles(cfg, Apply(cfg, s, a), rest, end)
    decreases |acts|
  {
    if acts == [] {
      QuiescentDisablesAdvance(cfg, s, a);
      assert false;
    }
    SettlesTail(cfg, s, acts, end);
    var b := acts[0];
    if b == a {
      rest := acts[1..];
    } else {
      rest := MoveOver(cfg, s, acts, end, a);
    }
  }

  lemma {:induction false} MoveOver(cfg: Config, s: State, acts: seq<Action>, end: State, a: Action)
    returns (rest: seq<Action>)
    requires Inv(cfg, s) && ConflictFree(cfg, s) && Enabled(cfg, s, a) && IsAdvance(a)
    requires acts != [] && acts[0] != a && Settles(cfg, s, acts, end)
    ensures |rest| < |acts| && multiset(rest) + multiset{a} == multiset(acts)
    ensures Settles(cfg, Apply(cfg, s, a), rest, end)
    decreases |acts|, 0
  {
    hide NewCell, Inv, ConflictFree, Enabled, Apply, Settles;
    var b := acts[0];
    SettlesTail(cfg, s, acts, end);
    if a.id == b.id {
      OneActionPerSubtask(cfg, s, a, b);
    }
    Diamond(cfg, s, a, b);
    StepInv(cfg, s, b);
    StepConflictFree(cfg, s, b);
    var s1 := Apply(cfg, s, b);
    var tail := MoveToFront(cfg, s1, acts[1..], end, a);
    SettlesPrepend(cfg, Apply(cfg, s, a), b, tail, end);
    rest := [b] + tail;
  }

  lemma {:induction false} SettlementsAgree(
      cfg: Config, s: State, p: seq<Action>, endP: State, q: seq<Action>, endQ: State)
    requires Inv(cfg, s) && ConflictFree(cfg, s)
    requires Settles(cfg, s, p, endP) && Settles(cfg, s, q, endQ)
    ensures endP == endQ && multiset(p) == multiset(q)
    decreases |p|
  {
    if p == [] {
      if q != [] {
        SettlesTail(cfg, s, q, endQ);
        QuiescentDisablesAdvance(cfg, s, q[0]);
        assert false;
      }
    } else {
      var a := p[0];
      SettlesTail(cfg, s, p, endP);
      var rest := MoveToFront(cfg, s, q, endQ, a);
      StepInv(cfg, s, a);
      StepConflictFree(cfg, s, a);
      SettlementsAgree(cfg, Apply(cfg, s, a), p[1..], endP, rest, endQ);
    }
  }

  // ----- Every state can be advanced to quiescence -----

  lemma SomethingToDo(cfg: Config, s: State) returns (a: Action)
    requires Inv(cfg, s) && Coherent(cfg.plan) && !Quiescent(cfg, s)
    ensures IsAdvance(a) && Enabled(cfg, s, a)
  {
    if st :| st in cfg.plan.subtasks && Ready(s, st) {
      a := if JoinMet(s, st) then Send(st.id) else Skip(st.id);
    } else if id :| id in s.cells && Expired(s.cells[id], s.now) {
      a := Expire(id);
    } else {
      var id :| id in s.cells && Due(s.cells[id], s.now);
      a := Republish(id);
    }
  }

  lemma {:induction false} CanSettle(cfg: Config, s: State) returns (acts: seq<Action>, end: State)
    requires Inv(cfg, s) && Coherent(cfg.plan)
    ensures Settles(cfg, s, acts, end)
    decreases Measure(s)
  {
    if Quiescent(cfg, s) {
      acts, end := [], s;
    } else {
      var a := SomethingToDo(cfg, s);
      StepInv(cfg, s, a);
      StepMeasure(cfg, s, a);
      var rest;
      rest, end := CanSettle(cfg, Apply(cfg, s, a));
      SettlesPrepend(cfg, s, a, rest, end);
      acts := [a] + rest;
    }
  }

  // ----- Where the order shows -----

  /** No timer will send the subtask at this clock reading, and it is not to be
      sent for the first time. */
  predicate NoMoreSends(s: State, id: Id, sends: nat) {
    id in s.cells &&
      var c := s.cells[id];
      (c.published || !c.pending) && !Due(c, s.now) && |c.sent| == sends
  }

  lemma {:induction false} SendsAreFinal(cfg: Config, s: State, acts: seq<Action>, end: State, id: Id, sends: nat)
    requires Inv(cfg, s) && Advances(cfg, s, acts, end) && NoMoreSends(s, id, sends)
    ensures NoMoreSends(end, id, sends)
    decreases |acts|
  {
    if acts != [] {
      AdvancesTail(cfg, s, acts, end);
      hide Inv, Enabled, Apply, Advances, NoMoreSends;
      StepInv(cfg, s, acts[0]);
      NoMoreSendsStays(cfg, s, acts[0], id, sends);
      SendsAreFinal(cfg, Apply(cfg, s, acts[0]), acts[1..], end, id, sends);
    }
  }

  lemma NoMoreSendsStays(cfg: Config, s: State, a: Action, id: Id, sends: nat)
    requires Inv(cfg, s) && IsAdvance(a) && Enabled(cfg, s, a) && NoMoreSends(s, id, sends)
    ensures NoMoreSends(Apply(cfg, s, a), id, sends)
  {
    assert CellInv(s.cells[a.id]);
  }

  lemma AdvancesTail(cfg: Config, s: State, acts: seq<Action>, end: State)
    requires acts != [] && Advances(cfg, s, acts, end)
    ensures IsAdvance(acts[0]) && Enabled(cfg, s, acts[0]) && Advances(cfg, Apply(cfg, s, acts[0]), acts[1..], end)
  {
    assert acts == [acts[0]] + acts[1..];
  }

  /** A way to quiescence after which the subtask has been sent so many times. */
  ghost predicate EndsWith(cfg: Config, s: State, acts: seq<Action>, end: State, id: Id, sends: nat) {
    Settles(cfg, s, acts, end) && id in end.cells && |end.cells[id].sent| == sends
  }

  lemma SettlesWith(cfg: Config, s: State, a: Action, sends: nat) returns (acts: seq<Action>, end: State)
    requires Inv(cfg, s) && Coherent(cfg.plan) && IsAdvance(a) && Enabled(cfg, s, a)
    requires NoMoreSends(Apply(cfg, s, a), a.id, sends)
    ensures EndsWith(cfg, s, acts, end, a.id, sends)
  {
    StepInv(cfg, s, a);
    var rest;
    rest, end := CanSettle(cfg, Apply(cfg, s, a));
    SendsAreFinal(cfg, Apply(cfg, s, a), rest, end, a.id, sends);
    SettlesPrepend(cfg, s, a, rest, end);
    acts := [a] + rest;
  }

  /** A subtask that could be re-sent and also sent, skipped or expired ends with
      one number of requests or with another, depending on what comes first. */
  lemma TornMeansOrderShows(cfg: Config, s: State, id: Id)
    returns (p: seq<Action>, a: State, q: seq<Action>, b: State)
    requires Inv(cfg, s) && Coherent(cfg.plan) && Enabled(cfg, s, Republish(id))
    requires Enabled(cfg, s, Send(id)) || Enabled(cfg, s, Skip(id)) || Enabled(cfg, s, Expire(id))
    ensures Settles(cfg, s, p, a) && Settles(cfg, s, q, b)
    ensures id in a.cells && id in b.cells && |a.cells[id].sent| != |b.cells[id].sent|
  {
    var n := |s.cells[id].sent|;
    assert CellInv(s.cells[id]);
    q, b := SettlesWith(cfg, s, Republish(id), n + 1);
    if Enabled(cfg, s, Send(id)) {
      var t := Apply(cfg, s, Send(id));
      StepInv(cfg, s, Send(id));
      p, a := SettlesWith(cfg, t, Republish(id), n + 2);
      SettlesPrepend(cfg, s, Send(id), p, a);
      p := [Send(id)] + p;
    } else if Enabled(cfg, s, Skip(id)) {
      p, a := SettlesWith(cfg, s, Skip(id), n);
    } else {
      p, a := SettlesWith(cfg, s, Expire(id), n);
    }
  }

  lemma TornHasRepublish(cfg: Config, s: State) returns (id: Id)
    requires Inv(cfg, s) && Torn(cfg, s)
    ensures Enabled(cfg, s, Republish(id))
    ensures Enabled(cfg, s, Send(id)) || Enabled(cfg, s, Skip(id)) || Enabled(cfg, s, Expire(id))
  {
    var a, b :| IsAdvance(a) && IsAdvance(b) && a != b && a.id == b.id && Enabled(cfg, s, a) && Enabled(cfg, s, b);
    id := a.id;
    hide NewCell, JoinMet, Ready;
    assert CellInv(s.cells[id]);
    ReadyIsUnsent(s, Get(cfg.plan, id));
  }

  lemma ReadyIsUnsent(s: State, st: Subtask)
    ensures Ready(s, st) ==> st.id in s.cells && !s.cells[st.id].published
  {
  }

  lemma AdvancesInv(cfg: Config, s: State, acts: seq<Action>, end: State)
    requires Inv(cfg, s) && Advances(cfg, s, acts, end)
    ensures Inv(cfg, end)
  {
    RunInv(cfg, s, acts);
  }

  /** Order independence, exactly: the order in which subtasks and timers are
      visited does not show if and only if advancing never opens two different
      steps to one subtask. */
  lemma OrderIndependentIff(cfg: Config, s: State)
    requires Inv(cfg, s) && Coherent(cfg.plan)
    ensures OrderIndependent(cfg, s) <==> ConflictFree(cfg, s)
  {
    hide Inv, Advances, Torn, Coherent, Quiescent;
    if ConflictFree(cfg, s) {
      forall p, a, q, b | Settles(cfg, s, p, a) && Settles(cfg, s, q, b)
        ensures a == b && multiset(p) == multiset(q)
      {
        SettlementsAgree(cfg, s, p, a, q, b);
      }
    } else {
      var acts, u :| Advances(cfg, s, acts, u) && Torn(cfg, u);
      AdvancesInv(cfg, s, acts, u);
      var id := TornHasRepublish(cfg, u);
      var p, a, q, b := TornMeansOrderShows(cfg, u, id);
      AdvancesConcat(cfg, s, acts, u, p, a);
      AdvancesConcat(cfg, s, acts, u, q, b);
      assert Settles(cfg, s, acts + p, a) && Settles(cfg, s, acts + q, b);
    }
  }

  // ----- A condition on the record -----

  /** No retry is due for a subtask that was not sent or whose answer has also
      timed out. */
  ghost predicate NoRace(s: State) {
    forall id :: id in s.cells && Due(s.cells[id], s.now) ==> s.cells[id].published && !Expired(s.cells[id], s.now)
  }

  lemma {:induction false} StaysWithoutRace(cfg: Config, s: State, acts: seq<Action>, end: State)
    requires Inv(cfg, s) && NoRace(s) && Advances(cfg, s, acts, end)
    ensures Inv(cfg, end) && NoRace(end)
    decreases |acts|
  {
    if acts != [] {
      AdvancesTail(cfg, s, acts, end);
      hide Inv, Enabled, Apply, Advances, NoRace;
      StepInv(cfg, s, acts[0]);
      StepWithoutRace(cfg, s, acts[0]);
      StaysWithoutRace(cfg, Apply(cfg, s, acts[0]), acts[1..], end);
    }
  }

  lemma StepWithoutRace(cfg: Config, s: State, a: Action)
    requires Inv(cfg, s) && NoRace(s) && IsAdvance(a) && Enabled(cfg, s, a)
    ensures NoRace(Apply(cfg, s, a))
  {
    assert CellInv(s.cells[a.id]);
  }

  lemma NoRaceIsNotTorn(cfg: Config, s: State)
    requires Inv(cfg, s) && NoRace(s)
    ensures !Torn(cfg, s)
  {
    assert forall id :: id in s.cells ==> CellInv(s.cells[id]);
    if Torn(cfg, s) {
      var id := TornHasRepublish(cfg, s);
    }
  }

  /** That condition, read off the record, suffices. */
  lemma NoRaceIsOrderIndependent(cfg: Config, s: State)
    requires Inv(cfg, s) && Coherent(cfg.plan) && NoRace(s)
    ensures OrderIndependent(cfg, s)
  {
    hide Inv, NoRace, Torn, Coherent, OrderIndependent, Advances;
    forall acts, u | Advances(cfg, s, acts, u) ensures !Torn(cfg, u) {
      StaysWithoutRace(cfg, s, acts, u);
      NoRaceIsNotTorn(cfg, u);
    }
    OrderIndependentIff(cfg, s);
  }

  // ----- Runs whose refuses are in turn -----

  /** A refuse that answers a request sent in this run. */
  ghost predicate InTurn(s: State, a: Action) {
    a.Refuse? ==> a.id in s.cells && s.cells[a.id].published
  }

  /** Backoff belongs to a sent subtask that awaits no answer. */
  ghost predicate Orderly(s: State) {
    forall id :: id in s.cells && s.cells[id].retryAt.Some? ==> s.cells[id].published && s.cells[id].deadline.None?
  }

  ghost predicate LegalInTurn(cfg: Config, s: State, acts: seq<Action>)
    decreases |acts|
  {
    acts == [] ||
    (Enabled(cfg, s, acts[0]) && InTurn(s, acts[0]) && LegalInTurn(cfg, Apply(cfg, s, acts[0]), acts[1..]))
  }

  lemma {:induction false} StaysOrderly(cfg: Config, s: State, acts: seq<Action>)
    requires Inv(cfg, s) && Orderly(s) && LegalInTurn(cfg, s, acts)
    ensures Legal(cfg, s, acts) && Inv(cfg, Exec(cfg, s, acts)) && Orderly(Exec(cfg, s, acts))
    decreases |acts|
  {
    if acts != [] {
      if !acts[0].Sample? {
        assert CellInv(s.cells[acts[0].id]);
      }
      StepInv(cfg, s, acts[0]);
      StaysOrderly(cfg, Apply(cfg, s, acts[0]), acts[1..]);
    }
  }

  /** While every refuse answers a request of the run, the order never shows:
      in every reachable state, before or during a pass. */
  lemma ReachableIsOrderIndependent(cfg: Config, stored: map<Id, Content>, t: real, acts: seq<Action>)
    requires Coherent(cfg.plan) && LegalInTurn(cfg, Initial(cfg, stored, t), acts)
    ensures Legal(cfg, Initial(cfg, stored, t), acts)
    ensures OrderIndependent(cfg, Exec(cfg, Initial(cfg, stored, t), acts))
  {
    InitialInv(cfg, stored, t);
    StaysOrderly(cfg, Initial(cfg, stored, t), acts);
    NoRaceIsOrderIndependent(cfg, Exec(cfg, Initial(cfg, stored, t), acts));
  }
}
