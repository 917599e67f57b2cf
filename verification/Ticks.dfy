/** One pass of the run loop for one task: read the clock, route the task's
    replies, advance to quiescence.  Sequences of such passes are what a task
    experiences, alone or next to others. */
module Ticks {
  import opened Basics
  import opened Plans
  import opened Dispatch
  import opened Invariants
  import opened Confluence
  import opened Rounds

  datatype Performative = REQUEST | INFORM | REFUSE | QUERY_REF

  datatype Message = Message(
    messageId: string, performative: Performative, taskId: string, subtaskId: Option<Id>, content: Content)

  /** How a refusal reason is rendered into a failure reason. */
  function ReasonOf(content: Content): (reason: string)
    ensures "reason" in content && content["reason"].JStr? ==> reason == content["reason"].str
    ensures "reason" !in content ==> reason == "None"
  {
    Str(ValueAt(content, "reason"))
  }

  /** What `_route_reply` does with a reply: nothing unless it names a pending
      subtask; anything but a refuse counts as an inform. */
  function ActionFor(s: State, m: Message): Option<Action> {
    if m.subtaskId.None? || m.subtaskId.value !in s.cells || !s.cells[m.subtaskId.value].pending then None
    else if m.performative == REFUSE then Some(Refuse(m.subtaskId.value, ReasonOf(m.content)))
    else Some(Inform(m.subtaskId.value, m.content))
  }

  lemma ActionForEnabled(cfg: Config, s: State, m: Message)
    requires Inv(cfg, s) && ActionFor(s, m).Some?
    ensures Enabled(cfg, s, ActionFor(s, m).value)
  {
  }

  /** The actions a list of replies causes, each seeing the effect of those before it. */
  ghost function Routed(cfg: Config, s: State, msgs: seq<Message>): (acts: seq<Action>)
    requires Inv(cfg, s)
    decreases |msgs|
  {
    if msgs == [] then []
    else if ActionFor(s, msgs[0]).None? then Routed(cfg, s, msgs[1..])
    else
      var a := ActionFor(s, msgs[0]).value;
      StepInv(cfg, s, a);
      [a] + Routed(cfg, Apply(cfg, s, a), msgs[1..])
  }

  lemma {:induction false} RoutedLegal(cfg: Config, s: State, msgs: seq<Message>)
    requires Inv(cfg, s)
    ensures Legal(cfg, s, Routed(cfg, s, msgs))
    decreases |msgs|
  {
    if msgs != [] {
      if ActionFor(s, msgs[0]).None? {
        RoutedLegal(cfg, s, msgs[1..]);
      } else {
        var a := ActionFor(s, msgs[0]).value;
        StepInv(cfg, s, a);
        RoutedLegal(cfg, Apply(cfg, s, a), msgs[1..]);
        var tail := Prepend(cfg, s, a, Routed(cfg, Apply(cfg, s, a), msgs[1..]));
      }
    }
  }

  lemma {:induction false} RoutedAppend(cfg: Config, s: State, msgs: seq<Message>, m: Message)
    requires Inv(cfg, s)
    ensures Legal(cfg, s, Routed(cfg, s, msgs))
    ensures var t := Exec(cfg, s, Routed(cfg, s, msgs));
      Routed(cfg, s, msgs + [m]) ==
        Routed(cfg, s, msgs) + (if ActionFor(t, m).Some? then [ActionFor(t, m).value] else [])
    decreases |msgs|
  {
    RoutedLegal(cfg, s, msgs);
    if msgs == [] {
      assert (msgs + [m])[1..] == [];
    } else {
      assert (msgs + [m])[1..] == msgs[1..] + [m];
      if ActionFor(s, msgs[0]).None? {
        RoutedAppend(cfg, s, msgs[1..], m);
      } else {
        var a := ActionFor(s, msgs[0]).value;
        StepInv(cfg, s, a);
        RoutedAppend(cfg, Apply(cfg, s, a), msgs[1..], m);
        var acts := Prepend(cfg, s, a, Routed(cfg, Apply(cfg, s, a), msgs[1..]));
      }
    }
  }

  /** The state in which the replies of a pass find the task. */
  ghost function Observed(s: State, now: real): State {
    s.(now := now)
  }

  ghost function AfterReplies(cfg: Config, s: State, msgs: seq<Message>): State
    requires Inv(cfg, s)
  {
    RoutedLegal(cfg, s, msgs);
    Exec(cfg, s, Routed(cfg, s, msgs))
  }

  /** One more reply routed. */
  lemma AfterOneMore(cfg: Config, s: State, msgs: seq<Message>, m: Message)
    requires Inv(cfg, s)
    ensures var t := AfterReplies(cfg, s, msgs);
      if ActionFor(t, m).None? then AfterReplies(cfg, s, msgs + [m]) == t
      else Enabled(cfg, t, ActionFor(t, m).value) &&
           AfterReplies(cfg, s, msgs + [m]) == Apply(cfg, t, ActionFor(t, m).value)
  {
    RoutedAppend(cfg, s, msgs, m);
    RunInv(cfg, s, Routed(cfg, s, msgs));
    var t := AfterReplies(cfg, s, msgs);
    assert Routed(cfg, s, msgs) + [] == Routed(cfg, s, msgs);
    if ActionFor(t, m).Some? {
      ActionForEnabled(cfg, t, m);
      LegalExtend(cfg, s, Routed(cfg, s, msgs), ActionFor(t, m).value);
    }
  }

  // ----- Passes -----

  /** The replies of one pass and its clock reading. */
  datatype Input = Input(msgs: seq<Message>, now: real)

  lemma RoutedInv(cfg: Config, s: State, msgs: seq<Message>, now: real)
    requires Inv(cfg, s) && now >= s.now
    ensures Inv(cfg, Observed(s, now)) && Inv(cfg, AfterReplies(cfg, Observed(s, now), msgs))
  {
    var s1 := Observed(s, now);
    RoutedLegal(cfg, s1, msgs);
    RunInv(cfg, s1, Routed(cfg, s1, msgs));
  }

  /** One pass of the loop: a function of the task's own state, its own replies
      and the clock. */
  ghost function PassOf(cfg: Config, s: State, input: Input): State
    requires Coherent(cfg.plan) && Inv(cfg, s) && input.now >= s.now
  {
    RoutedInv(cfg, s, input.msgs, input.now);
    Advanced(cfg, AfterReplies(cfg, Observed(s, input.now), input.msgs))
  }

  lemma PassRests(cfg: Config, s: State, input: Input)
    requires Coherent(cfg.plan) && Inv(cfg, s) && input.now >= s.now
    ensures Inv(cfg, PassOf(cfg, s, input)) && Quiescent(cfg, PassOf(cfg, s, input))
  {
    RoutedInv(cfg, s, input.msgs, input.now);
    var acts := AdvancedSettles(cfg, AfterReplies(cfg, Observed(s, input.now), input.msgs));
  }

  // ----- The life of a task -----

  /** What a task is given: the results reloaded when it was registered and the
      clock reading then, and its passes so far. */
  datatype Life = Life(loaded: map<Id, Content>, start: real, inputs: seq<Input>)

  function LastInput(life: Life): Input
    requires life.inputs != []
  {
    life.inputs[|life.inputs| - 1]
  }

  function Earlier(life: Life): Life
    requires life.inputs != []
  {
    life.(inputs := life.inputs[..|life.inputs| - 1])
  }

  function Later(life: Life, input: Input): Life {
    life.(inputs := life.inputs + [input])
  }

  ghost function Registered(cfg: Config, loaded: map<Id, Content>, start: real): State
    requires Coherent(cfg.plan)
  {
    InitialInv(cfg, loaded, start);
    Advanced(cfg, Initial(cfg, loaded, start))
  }

  /** A task with this life is in state s. */
  ghost predicate Lives(cfg: Config, life: Life, s: State)
    decreases |life.inputs|
  {
    Coherent(cfg.plan) &&
    if life.inputs == [] then s == Registered(cfg, life.loaded, life.start)
    else exists r :: Lives(cfg, Earlier(life), r) && Follows(cfg, r, LastInput(life), s)
  }

  ghost predicate Follows(cfg: Config, r: State, input: Input, s: State) {
    Coherent(cfg.plan) && Inv(cfg, r) && input.now >= r.now && s == PassOf(cfg, r, input)
  }

  lemma LivesOn(cfg: Config, life: Life, r: State, input: Input, s: State)
    requires Lives(cfg, life, r) && Follows(cfg, r, input, s)
    ensures Lives(cfg, Later(life, input), s)
  {
    assert Earlier(Later(life, input)) == life;
  }

  /** Task isolation over whole lives: what a task is given decides the state it
      is in, no matter what other tasks the coordinator runs, finishes or
      abandons, and whatever the replies. */
  lemma {:induction false} LifeDecidesState(cfg: Config, life: Life, a: State, b: State)
    requires Lives(cfg, life, a) && Lives(cfg, life, b)
    ensures a == b && Inv(cfg, a) && Quiescent(cfg, a)
    decreases |life.inputs|
  {
    if life.inputs == [] {
      InitialInv(cfg, life.loaded, life.start);
      var acts := AdvancedSettles(cfg, Initial(cfg, life.loaded, life.start));
    } else {
      var r :| Lives(cfg, Earlier(life), r) && Follows(cfg, r, LastInput(life), a);
      var q :| Lives(cfg, Earlier(life), q) && Follows(cfg, q, LastInput(life), b);
      LifeDecidesState(cfg, Earlier(life), r, q);
      PassRests(cfg, r, LastInput(life));
    }
  }
}
