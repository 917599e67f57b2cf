/** What replies do to a task, told from the messages alone: which of them
    decides a subtask, how refuses are counted, and what is left to be stored. */
module Replies {
  import opened Basics
  import opened Plans
  import opened Dispatch
  import opened Invariants
  import opened Confluence
  import opened Rounds
  import opened Ticks
  import opened Handlers
  import opened Coordination

  /** How many refuses name the subtask. */
  function Refusals(msgs: seq<Message>, id: Id): nat {
    if msgs == [] then 0
    else
      var n := |msgs| - 1;
      Refusals(msgs[..n], id) + if msgs[n].subtaskId == Some(id) && msgs[n].performative == REFUSE then 1 else 0
  }

  /** Every reply that names the subtask is a refuse. */
  predicate OnlyRefused(msgs: seq<Message>, id: Id) {
    forall m :: m in msgs && m.subtaskId == Some(id) ==> m.performative == REFUSE
  }

  /** The i-th reply is the first that names the subtask and is no refuse, and
      the refuses before it leave the subtask within its three attempts. */
  predicate Decides(msgs: seq<Message>, i: nat, id: Id, retries: nat) {
    && i < |msgs| && msgs[i].subtaskId == Some(id) && msgs[i].performative != REFUSE
    && OnlyRefused(msgs[..i], id) && retries + Refusals(msgs[..i], id) <= 2
  }

  /** The first n replies refuse the subtask once too often. */
  predicate UsesUp(msgs: seq<Message>, n: nat, id: Id, retries: nat) {
    n <= |msgs| && OnlyRefused(msgs[..n], id) && retries + Refusals(msgs[..n], id) > 2
  }

  /** What the replies make of a pending subtask: the first that is no refuse
      gives its result, unless it was refused once too often before. */
  ghost predicate DecidedBy(msgs: seq<Message>, id: Id, was: Cell, c: Cell) {
    && (c.result == Open <==> OnlyRefused(msgs, id) && was.retries + Refusals(msgs, id) <= 2)
    && (c.result == Open ==> c.pending && c.retries == was.retries + Refusals(msgs, id))
    && (c.result == Failure <==> exists n: nat :: UsesUp(msgs, n, id, was.retries))
    && (c.result.Success? ==> exists i: nat :: Decides(msgs, i, id, was.retries) && c.result.content == msgs[i].content)
    && (forall i: nat :: Decides(msgs, i, id, was.retries) ==> c.result == Success(msgs[i].content))
  }

  lemma RefusalsGrow(msgs: seq<Message>, n: nat, k: nat, id: Id)
    requires n <= k <= |msgs|
    ensures Refusals(msgs[..n], id) <= Refusals(msgs[..k], id)
    decreases k - n
  {
    if n < k {
      assert msgs[..k][..k - 1] == msgs[..k - 1];
      RefusalsGrow(msgs, n, k - 1, id);
    }
  }

  /** How one more reply bears on what the replies decide. */
  lemma OneMoreToDecide(msgs: seq<Message>, m: Message, id: Id, retries: nat)
    ensures var all, k, named := msgs + [m], |msgs|, m.subtaskId == Some(id);
      && (OnlyRefused(all, id) <==> OnlyRefused(msgs, id) && (named ==> m.performative == REFUSE))
      && Refusals(all, id) == Refusals(msgs, id) + (if named && m.performative == REFUSE then 1 else 0)
      && (forall n: nat :: n <= k ==> (UsesUp(all, n, id, retries) <==> UsesUp(msgs, n, id, retries)))
      && (forall i: nat :: i < k ==> (Decides(all, i, id, retries) <==> Decides(msgs, i, id, retries)))
      && (UsesUp(all, k + 1, id, retries) <==> OnlyRefused(all, id) && retries + Refusals(all, id) > 2)
      && (Decides(all, k, id, retries) <==>
            named && m.performative != REFUSE && OnlyRefused(msgs, id) && retries + Refusals(msgs, id) <= 2)
  {
    var all, k := msgs + [m], |msgs|;
    assert all[..k] == msgs && all[..k + 1] == all;
    assert forall n :: 0 <= n <= k ==> all[..n] == msgs[..n];
  }

  /** A subtask is not decided twice. */
  lemma DecidedOnce(msgs: seq<Message>, id: Id, retries: nat)
    ensures forall n: nat :: UsesUp(msgs, n, id, retries) ==> n <= |msgs| && retries + Refusals(msgs, id) > 2
    ensures forall i: nat :: Decides(msgs, i, id, retries) ==> i < |msgs| && !OnlyRefused(msgs, id)
  {
    assert msgs[..|msgs|] == msgs;
    forall n: nat | UsesUp(msgs, n, id, retries) ensures retries + Refusals(msgs, id) > 2 {
      RefusalsGrow(msgs, n, |msgs|, id);
    }
  }

  /** One more reply, given what those before it have decided. */
  lemma DecidedByOneMore(msgs: seq<Message>, m: Message, id: Id, was: Cell, c: Cell, d: Cell)
    requires DecidedBy(msgs, id, was, c) && (c.pending <==> c.result == Open)
    requires !c.pending || m.subtaskId != Some(id) ==> d.result == c.result && d.pending == c.pending && d.retries == c.retries
    requires c.pending && m.subtaskId == Some(id) && m.performative != REFUSE ==> d.result == Success(m.content)
    requires c.pending && m.subtaskId == Some(id) && m.performative == REFUSE && c.retries >= 2 ==> d.result == Failure
    requires c.pending && m.subtaskId == Some(id) && m.performative == REFUSE && c.retries < 2 ==>
      d.result == Open && d.pending && d.retries == c.retries + 1
    ensures DecidedBy(msgs + [m], id, was, d)
  {
    hide Decides, UsesUp, OnlyRefused, Refusals;
    var all, retries := msgs + [m], was.retries;
    OneMoreToDecide(msgs, m, id, retries);
    DecidedOnce(msgs, id, retries);
    DecidedOnce(all, id, retries);
    if n: nat :| UsesUp(msgs, n, id, retries) {
      assert UsesUp(all, n, id, retries);
    }
    if i: nat :| Decides(msgs, i, id, retries) {
      assert Decides(all, i, id, retries);
    }
  }

  /** What a reply does to the cell of a subtask and to the others. */
  lemma EffectOfReply(cfg: Config, t: State, m: Message, id: Id)
    requires Inv(cfg, t) && id in t.cells
    ensures var d := AfterReply(cfg, t, m).cells;
      && d.Keys == t.cells.Keys
      && if !t.cells[id].pending || m.subtaskId != Some(id) then d[id] == t.cells[id]
         else if m.performative != REFUSE then d[id].result == Success(m.content)
         else if t.cells[id].retries >= 2 then d[id].result == Failure
         else d[id].result == Open && d[id].pending && d[id].retries == t.cells[id].retries + 1
  {
  }

  ghost function AfterReply(cfg: Config, t: State, m: Message): State
    requires Inv(cfg, t)
  {
    if ActionFor(t, m).None? then t else Apply(cfg, t, ActionFor(t, m).value)
  }

  /** The replies of a pass decide every pending subtask as DecidedBy says. */
  lemma {:induction false} RepliesDecide(cfg: Config, s: State, msgs: seq<Message>, id: Id)
    requires Inv(cfg, s) && id in s.cells && s.cells[id].pending
    ensures var t := AfterReplies(cfg, s, msgs);
      Inv(cfg, t) && id in t.cells && DecidedBy(msgs, id, s.cells[id], t.cells[id])
    decreases |msgs|
  {
    hide Apply, Routed;
    if msgs == [] {
      NoReplies(cfg, s);
    } else {
      var n := |msgs| - 1;
      var before, m := msgs[..n], msgs[n];
      assert msgs == before + [m];
      RepliesDecide(cfg, s, before, id);
      var t := AfterReplies(cfg, s, before);
      AfterOneMore(cfg, s, before, m);
      EffectOfReply(cfg, t, m, id);
      AfterInv(cfg, s, msgs);
      DecidedByOneMore(before, m, id, s.cells[id], t.cells[id], AfterReply(cfg, t, m).cells[id]);
    }
  }

  lemma NoReplies(cfg: Config, s: State)
    requires Inv(cfg, s)
    ensures AfterReplies(cfg, s, []) == s
  {
  }

  lemma AfterInv(cfg: Config, s: State, msgs: seq<Message>)
    requires Inv(cfg, s)
    ensures Inv(cfg, AfterReplies(cfg, s, msgs))
  {
    RoutedLegal(cfg, s, msgs);
    RunInv(cfg, s, Routed(cfg, s, msgs));
  }

  // ----- What is left to be stored -----

  /** The contents of the deciding replies, in order, each with its operation. */
  ghost function DecidedJobs(cfg: Config, s: State, msgs: seq<Message>): seq<PersistJob>
    requires Inv(cfg, s)
  {
    if msgs == [] then []
    else
      var n := |msgs| - 1;
      DecidedJobs(cfg, s, msgs[..n]) +
        if msgs[n].subtaskId.Some? && msgs[n].subtaskId.value in s.cells && s.cells[msgs[n].subtaskId.value].pending &&
           Decides(msgs, n, msgs[n].subtaskId.value, s.cells[msgs[n].subtaskId.value].retries)
        then [PersistJob(cfg.task.id, Get(cfg.plan, msgs[n].subtaskId.value).operation, msgs[n].content)]
        else []
  }

  /** Exactly the contents that became results are left to be stored. */
  lemma {:induction false} DecisionsAreStored(cfg: Config, s: State, msgs: seq<Message>)
    requires Inv(cfg, s)
    ensures JobsOf(cfg, s, msgs) == DecidedJobs(cfg, s, msgs)
    decreases |msgs|
  {
    if msgs != [] {
      var n := |msgs| - 1;
      DecisionsAreStored(cfg, s, msgs[..n]);
      JobOfOneMore(cfg, s, msgs[..n], msgs[n]);
      assert msgs == msgs[..n] + [msgs[n]];
    }
  }

  lemma JobOfOneMore(cfg: Config, s: State, msgs: seq<Message>, m: Message)
    requires Inv(cfg, s)
    ensures JobFor(cfg, AfterReplies(cfg, s, msgs), m) ==
      if m.subtaskId.Some? && m.subtaskId.value in s.cells && s.cells[m.subtaskId.value].pending &&
         Decides(msgs + [m], |msgs|, m.subtaskId.value, s.cells[m.subtaskId.value].retries)
      then Some(PersistJob(cfg.task.id, Get(cfg.plan, m.subtaskId.value).operation, m.content))
      else None
  {
    hide AfterReplies;
    AfterInv(cfg, s, msgs);
    var t := AfterReplies(cfg, s, msgs);
    assert (msgs + [m])[..|msgs|] == msgs;
    if m.subtaskId.Some? && m.subtaskId.value in s.cells {
      var id := m.subtaskId.value;
      if s.cells[id].pending {
        RepliesDecide(cfg, s, msgs, id);
      } else {
        ResolvedByNoReply(cfg, s, msgs, id);
      }
    }
  }

  /** Replies leave a resolved subtask alone. */
  lemma ResolvedByNoReply(cfg: Config, s: State, msgs: seq<Message>, id: Id)
    requires Inv(cfg, s) && id in s.cells && !s.cells[id].pending
    ensures id in AfterReplies(cfg, s, msgs).cells && AfterReplies(cfg, s, msgs).cells[id] == s.cells[id]
  {
    RoutedLegal(cfg, s, msgs);
    assert CellInv(s.cells[id]);
    ResolvedIsFrozen(cfg, s, Routed(cfg, s, msgs), id);
  }

  // ----- Whole passes -----

  /** Nothing but a reply makes a subtask succeed. */
  lemma {:induction false} AdvancesNeverSucceed(cfg: Config, s: State, acts: seq<Action>, end: State, id: Id)
    requires Inv(cfg, s) && Advances(cfg, s, acts, end) && id in s.cells && s.cells[id].result == Open
    ensures id in end.cells && !end.cells[id].result.Success?
    decreases |acts|
  {
    if acts != [] {
      StepInv(cfg, s, acts[0]);
      AdvancesTail(cfg, s, acts, end);
      var t := Apply(cfg, s, acts[0]);
      if t.cells[id].result == Open {
        AdvancesNeverSucceed(cfg, t, acts[1..], end, id);
      } else {
        ResolvedIsFrozen(cfg, t, acts[1..], id);
      }
    }
  }

  /** A pass makes a pending subtask succeed with the content of the reply that
      decides it, and with nothing else; refused once too often, it fails. */
  lemma PassIsDecided(cfg: Config, s: State, input: Input, id: Id)
    requires Coherent(cfg.plan) && Inv(cfg, s) && input.now >= s.now && id in s.cells && s.cells[id].pending
    ensures var k, end := s.cells[id].retries, PassOf(cfg, s, input);
      && id in end.cells
      && (forall i: nat :: Decides(input.msgs, i, id, k) ==> end.cells[id].result == Success(input.msgs[i].content))
      && (end.cells[id].result.Success? ==> exists i: nat :: Decides(input.msgs, i, id, k))
      && ((exists n: nat :: UsesUp(input.msgs, n, id, k)) ==> end.cells[id].result == Failure)
  {
    var s1 := Observed(s, input.now);
    RoutedInv(cfg, s, input.msgs, input.now);
    RepliesDecide(cfg, s1, input.msgs, id);
    var t := AfterReplies(cfg, s1, input.msgs);
    var acts := AdvancedSettles(cfg, t);
    hide AfterReplies, Advanced, Decides, UsesUp;
    if t.cells[id].result == Open {
      AdvancesNeverSucceed(cfg, t, acts, PassOf(cfg, s, input), id);
    } else {
      ResolvedIsFrozen(cfg, t, acts, id);
    }
  }

  // ----- A single reply, from the bus to the end of the tick -----

  /** A subtask in its backoff is left alone until the backoff is over. */
  lemma {:induction false} BackoffIsKept(cfg: Config, s: State, acts: seq<Action>, end: State, id: Id)
    requires Inv(cfg, s) && Advances(cfg, s, acts, end) && id in s.cells && s.cells[id].published
    requires s.cells[id].deadline == None && s.cells[id].retryAt.Some? && s.cells[id].retryAt.value > s.now
    ensures id in end.cells && end.cells[id] == s.cells[id]
    decreases |acts|
  {
    if acts != [] {
      StepInv(cfg, s, acts[0]);
      AdvancesTail(cfg, s, acts, end);
      BackoffIsKept(cfg, Apply(cfg, s, acts[0]), acts[1..], end, id);
    }
  }

  /** The reply names a pending subtask of the task. */
  predicate Awaited(s: State, m: Message) {
    m.subtaskId.Some? && m.subtaskId.value in s.cells && s.cells[m.subtaskId.value].pending
  }

  /** The cell that a single reply leaves. */
  predicate CellTurned(c: Cell, m: Message, now: real, d: Cell) {
    if m.performative != REFUSE then
      d == c.(pending := false, result := Success(m.content), resolvedAt := Some(now), deadline := None, retryAt := None,
              routed := c.routed + 1)
    else if c.retries >= 2 then
      d == c.(pending := false, published := true, result := Failure, resolvedAt := Some(now), deadline := None,
              retryAt := None, routed := c.routed + 1, failReason := Some("refuse: " + ReasonOf(m.content)))
    else
      d == c.(deadline := None, routed := c.routed + 1, retries := c.retries + 1,
              retryAt := Some(now + (if c.retries == 0 then 1.0 else 4.0)),
              failReason := Some("refuse: " + ReasonOf(m.content)))
  }

  /** What a tick with this reply alone makes of the subtask it names. A subtask
      refused before it was ever sent may still be sent or fail with its upstreams. */
  ghost predicate TurnedOut(s: State, m: Message, now: real, end: State)
    requires Awaited(s, m)
  {
    var id, c := m.subtaskId.value, s.cells[m.subtaskId.value];
    id in end.cells &&
    if m.performative != REFUSE || c.retries >= 2 || c.published then CellTurned(c, m, now, end.cells[id])
    else !end.cells[id].result.Success?
  }

  lemma RoutedAlone(cfg: Config, s: State, m: Message)
    requires Inv(cfg, s) && Awaited(s, m)
    ensures var t := AfterReplies(cfg, s, [m]);
      m.subtaskId.value in t.cells && CellTurned(s.cells[m.subtaskId.value], m, s.now, t.cells[m.subtaskId.value]) && t.now == s.now
  {
    AfterOneMore(cfg, s, [], m);
    NoReplies(cfg, s);
    assert [] + [m] == [m];
  }

  lemma SingleReply(cfg: Config, s: State, m: Message, now: real)
    requires Coherent(cfg.plan) && Inv(cfg, s) && now >= s.now && Awaited(s, m)
    ensures TurnedOut(s, m, now, PassOf(cfg, s, Input([m], now)))
  {
    var id, s1 := m.subtaskId.value, Observed(s, now);
    RoutedInv(cfg, s, [m], now);
    RoutedAlone(cfg, s1, m);
    var t := AfterReplies(cfg, s1, [m]);
    var acts := AdvancedSettles(cfg, t);
    hide Advanced, AfterReplies, Inv, CellInv, Legal, Exec, Coherent;
    var end := PassOf(cfg, s, Input([m], now));
    if t.cells[id].result != Open {
      ResolvedIsFrozen(cfg, t, acts, id);
    } else {
      AdvancesNeverSucceed(cfg, t, acts, end, id);
      if s.cells[id].published {
        BackoffIsKept(cfg, t, acts, end, id);
      }
    }
  }

  lemma SingleJob(cfg: Config, s: State, m: Message)
    requires Inv(cfg, s)
    ensures JobsOf(cfg, s, [m]) == if Awaited(s, m) && m.performative != REFUSE
                                   then [PersistJob(cfg.task.id, Get(cfg.plan, m.subtaskId.value).operation, m.content)]
                                   else []
  {
    assert [m][..0] == [];
    NoReplies(cfg, s);
  }

  lemma AllForOne(jobs: seq<PersistJob>, t: string)
    requires forall job :: job in jobs && job.taskId != t ==> JobsFor(jobs, job.taskId) == []
    ensures JobsFor(jobs, t) == jobs
  {
    forall job | job in jobs ensures job.taskId == t {
      JobIsListed(jobs, job);
    }
    OnlyTheirs(jobs, t);
  }

  lemma {:induction false} JobIsListed(jobs: seq<PersistJob>, job: PersistJob)
    requires job in jobs
    ensures job in JobsFor(jobs, job.taskId)
  {
    var n := |jobs| - 1;
    if jobs[n] != job {
      JobIsListed(jobs[..n], job);
    }
  }

  lemma {:induction false} OnlyTheirs(jobs: seq<PersistJob>, t: string)
    requires forall job :: job in jobs ==> job.taskId == t
    ensures JobsFor(jobs, t) == jobs
  {
    if jobs != [] {
      OnlyTheirs(jobs[..|jobs| - 1], t);
      assert jobs == jobs[..|jobs| - 1] + [jobs[|jobs| - 1]];
    }
  }

  /** A tick with one reply. The task it is addressed to is changed by it as TurnedOut
      says, and an inform for a pending subtask leaves exactly one job; every
      other task, and this one if the reply names no pending subtask, passes as if
      no reply had come. */
  lemma OneReplyDelivered(cfgs: map<string, Config>, start: map<string, State>, m: Message, now: real,
                          jobs: seq<PersistJob>, ends: map<string, State>)
    requires PassedAll(cfgs, start, [m], now, jobs, ends)
    requires m.taskId in start && cfgs[m.taskId].task.id == m.taskId
    ensures var t := m.taskId;
      && (forall x :: x in start && (x != t || !Awaited(start[t], m)) ==>
            Follows(cfgs[x], start[x], Input([], now), ends[x]))
      && (Awaited(start[t], m) ==> TurnedOut(start[t], m, now, ends[t]) && m.subtaskId.value in Ids(cfgs[t].plan))
      && jobs == if Awaited(start[t], m) && m.performative != REFUSE
                 then [PersistJob(t, Get(cfgs[t].plan, m.subtaskId.value).operation, m.content)]
                 else []
  {
    var t := m.taskId;
    hide PassOf, JobsOf, TurnedOut, JobsFor;
    assert [m][..0] == [];
    assert forall x :: Mine([m], x) == if x == t then [m] else [];
    forall x | x in start && x != t ensures JobsFor(jobs, x) == [] && Follows(cfgs[x], start[x], Input([], now), ends[x]) {
      NoJobs(cfgs[x], Observed(start[x], now));
    }
    AllForOne(jobs, t);
    SingleJob(cfgs[t], Observed(start[t], now), m);
    if Awaited(start[t], m) {
      SingleReply(cfgs[t], start[t], m, now);
    } else {
      ReplyDropped(cfgs[t], start[t], m, now);
    }
  }

  lemma NoJobs(cfg: Config, s: State)
    requires Inv(cfg, s)
    ensures JobsOf(cfg, s, []) == []
  {
  }

  lemma ReplyDropped(cfg: Config, s: State, m: Message, now: real)
    requires Coherent(cfg.plan) && Inv(cfg, s) && now >= s.now && !Awaited(s, m)
    ensures PassOf(cfg, s, Input([m], now)) == PassOf(cfg, s, Input([], now))
  {
    var s1 := Observed(s, now);
    RoutedInv(cfg, s, [m], now);
    AfterOneMore(cfg, s1, [], m);
    assert [] + [m] == [m];
  }
}
