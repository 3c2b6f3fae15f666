/** The outside world of a run: providers, tools, hooks and other callers of the agent. Each oracle
    is a function of a logical clock that advances at every await, so it may answer differently each
    time; statements that hold for all oracles hold for every behaviour of the outside world. */
module Oracles {
  import opened Messages
  import opened MessageQueue

  /** What other code may call while the run is suspended at an await. */
  datatype Action =
    | Steer(m: Message)
    | FollowUp(m: Message)
    | Abort
    | SetSteeringMode(mode: QueueMode)
    | SetFollowUpMode(mode: QueueMode)
    | ClearSteeringQueue
    | ClearFollowUpQueue

  /** The two queues of an agent. */
  datatype Side = Steering | FollowUps

  function EnqueuedBy(side: Side, a: Action): seq<Message> {
    if side.Steering? && a.Steer? then [a.m] else if side.FollowUps? && a.FollowUp? then [a.m] else []
  }

  predicate Clears(side: Side, a: Action) {
    if side.Steering? then a.ClearSteeringQueue? else a.ClearFollowUpQueue?
  }

  /** None of the actions clears the queue. */
  predicate Spares(side: Side, actions: seq<Action>) {
    forall a :: a in actions ==> !Clears(side, a)
  }

  function ModeAfter(side: Side, mode: QueueMode, a: Action): QueueMode {
    if side.Steering? && a.SetSteeringMode? then a.mode
    else if side.FollowUps? && a.SetFollowUpMode? then a.mode
    else mode
  }

  /** What an action makes of a queue. */
  function AfterAction(side: Side, w: Waiting, a: Action): Waiting {
    Waiting(if Clears(side, a) then [] else w.messages + EnqueuedBy(side, a), ModeAfter(side, w.mode, a))
  }

  function AfterAll(side: Side, w: Waiting, actions: seq<Action>): Waiting {
    if actions == [] then w
    else AfterAction(side, AfterAll(side, w, actions[..|actions| - 1]), actions[|actions| - 1])
  }

  function EnqueuedByAll(side: Side, actions: seq<Action>): seq<Message> {
    if actions == [] then []
    else EnqueuedByAll(side, actions[..|actions| - 1]) + EnqueuedBy(side, actions[|actions| - 1])
  }

  lemma ActionsSnoc(side: Side, w: Waiting, actions: seq<Action>, a: Action)
    ensures AfterAll(side, w, actions + [a]) == AfterAction(side, AfterAll(side, w, actions), a)
    ensures EnqueuedByAll(side, actions + [a]) == EnqueuedByAll(side, actions) + EnqueuedBy(side, a)
    ensures Spares(side, actions + [a]) <==> Spares(side, actions) && !Clears(side, a)
  {
    assert (actions + [a])[..|actions|] == actions;
    hide Clears;
    assert forall b :: b in actions + [a] <==> b in actions || b == a;
  }

  lemma {:induction false} ModeStays(w: Waiting, actions: seq<Action>)
    requires w.mode == OneAtATime && SetSteeringMode(All) !in actions
    ensures AfterAll(Steering, w, actions).mode == OneAtATime
  {
    if actions != [] {
      var front, last := actions[..|actions| - 1], actions[|actions| - 1];
      assert last in actions && SetSteeringMode(All) !in front;
      ModeStays(w, front);
    }
  }

  /** What a queue has accepted during one more await. */
  lemma AcceptedSnoc(env: Env, side: Side, start: seq<Message>, before: seq<Message>, after: seq<Message>, since: nat,
      now: nat)
    requires since <= now
    requires env.NeverClears(side, since, now) ==> before == start + env.Enqueued(side, since, now)
    requires Spares(side, env.outside(now)) ==> after == before + EnqueuedByAll(side, env.outside(now))
    ensures env.NeverClears(side, since, now + 1) ==> after == start + env.Enqueued(side, since, now + 1)
  {
    WindowSnoc(env, side, since, now);
    hide Spares, EnqueuedByAll, Env.NeverClears;
    Assoc(start, env.Enqueued(side, since, now), EnqueuedByAll(side, env.outside(now)));
  }

  lemma NoTime(env: Env, side: Side, w: Waiting, t: nat)
    ensures env.After(side, w, t, t) == w
  {
  }

  lemma {:induction false} AfterSplit(env: Env, side: Side, w: Waiting, a: nat, b: nat, c: nat)
    requires a <= b <= c
    ensures env.After(side, env.After(side, w, a, b), b, c) == env.After(side, w, a, c)
  {
    if b < c { AfterSplit(env, side, w, a, b, c - 1); }
  }

  lemma {:induction false} ModeBlindAll(side: Side, w: Waiting, v: Waiting, actions: seq<Action>)
    requires w.messages == v.messages
    ensures AfterAll(side, w, actions).messages == AfterAll(side, v, actions).messages
  {
    if actions != [] { ModeBlindAll(side, w, v, actions[..|actions| - 1]); }
  }

  /** The mode of a queue does not matter to what other code makes of its messages. */
  lemma {:induction false} ModeBlind(env: Env, side: Side, w: Waiting, v: Waiting, t0: nat, t1: nat)
    requires w.messages == v.messages
    ensures env.After(side, w, t0, t1).messages == env.After(side, v, t0, t1).messages
    decreases t1
  {
    if t0 < t1 {
      ModeBlind(env, side, w, v, t0, t1 - 1);
      ModeBlindAll(side, env.After(side, w, t0, t1 - 1), env.After(side, v, t0, t1 - 1), env.outside(t1 - 1));
    }
  }

  lemma LeftLonger(env: Env, side: Side, w: Waiting, a: nat, b: nat, c: nat)
    requires a <= b <= c && w.messages == env.Left(side, a, b)
    ensures env.After(side, w, b, c).messages == env.Left(side, a, c)
  {
    var v := env.After(side, Waiting([], All), a, b);
    ModeBlind(env, side, w, v, b, c);
    AfterSplit(env, side, Waiting([], All), a, b, c);
  }

  lemma {:induction false} EnqueuedSplit(env: Env, side: Side, a: nat, b: nat, c: nat)
    requires a <= b <= c
    ensures env.Enqueued(side, a, c) == env.Enqueued(side, a, b) + env.Enqueued(side, b, c)
  {
    if b < c {
      hide EnqueuedByAll;
      EnqueuedSplit(env, side, a, b, c - 1);
      Assoc(env.Enqueued(side, a, b), env.Enqueued(side, b, c - 1), EnqueuedByAll(side, env.outside(c - 1)));
    } else {
      assert env.Enqueued(side, b, c) == [];
    }
  }

  lemma {:induction false} AllWithoutClears(side: Side, w: Waiting, actions: seq<Action>)
    requires Spares(side, actions)
    ensures AfterAll(side, w, actions).messages == w.messages + EnqueuedByAll(side, actions)
  {
    if actions != [] {
      var front, last := actions[..|actions| - 1], actions[|actions| - 1];
      assert last in actions && forall a :: a in front ==> a in actions;
      AllWithoutClears(side, w, front);
      Assoc(w.messages, EnqueuedByAll(side, front), EnqueuedBy(side, last));
    }
  }

  /** A queue that is neither drained nor cleared keeps its messages and gains the enqueued ones. */
  lemma {:induction false} WithoutClears(env: Env, side: Side, w: Waiting, t0: nat, t1: nat)
    requires env.NeverClears(side, t0, t1)
    ensures env.After(side, w, t0, t1).messages == w.messages + env.Enqueued(side, t0, t1)
    decreases t1
  {
    if t0 < t1 {
      hide AfterAll, EnqueuedByAll, Spares;
      WithoutClears(env, side, w, t0, t1 - 1);
      AllWithoutClears(side, env.After(side, w, t0, t1 - 1), env.outside(t1 - 1));
      Assoc(w.messages, env.Enqueued(side, t0, t1 - 1), EnqueuedByAll(side, env.outside(t1 - 1)));
    }
  }

  lemma LeftIsEnqueued(env: Env, side: Side, t0: nat, t1: nat)
    requires env.NeverClears(side, t0, t1)
    ensures env.Left(side, t0, t1) == env.Enqueued(side, t0, t1)
  {
    WithoutClears(env, side, Waiting([], All), t0, t1);
    assert [] + env.Enqueued(side, t0, t1) == env.Enqueued(side, t0, t1);
  }

  /** One more moment. */
  lemma WindowSnoc(env: Env, side: Side, t0: nat, t1: nat)
    requires t0 <= t1
    ensures env.Aborts(t0, t1 + 1) <==> env.Aborts(t0, t1) || Abort in env.outside(t1)
    ensures env.NeverClears(side, t0, t1 + 1) <==> env.NeverClears(side, t0, t1) && Spares(side, env.outside(t1))
    ensures env.SteersOneAtATime(t0, t1 + 1) <==>
      env.SteersOneAtATime(t0, t1) && SetSteeringMode(All) !in env.outside(t1)
  {
    hide Spares;
    if env.Aborts(t0, t1) || Abort in env.outside(t1) {
      var t: nat :| t0 <= t < t1 + 1 && Abort in env.outside(t);
    }
  }

  lemma AbortsStay(env: Env, t0: nat, t1: nat, t2: nat)
    requires env.Aborts(t0, t1) && t1 <= t2
    ensures env.Aborts(t0, t2)
  {
    var t: nat :| t0 <= t < t1 && Abort in env.outside(t);
    assert t0 <= t < t2;
  }

  datatype StreamEvent = Start(partial: AssistantMessage) | Update(partial: AssistantMessage) | Terminal

  predicate AtMostOneStart(events: seq<StreamEvent>) {
    forall i, j :: 0 <= i < j < |events| ==> !(events[i].Start? && events[j].Start?)
  }

  datatype RawResponse = Response(events: seq<StreamEvent>, final: AssistantMessage)

  /** The stream contract: `start` comes at most once. */
  type Response = r: RawResponse | AtMostOneStart(r.events) witness Response([], Assistant([], Stop, None))

  datatype Verdict = Allow | Block(reason: Option<string>)

  datatype Execution = Execution(updates: seq<string>, result: Attempt<ToolOutput>)

  /** The optional fields of an `afterToolCall` result. */
  datatype Override = Override(
    content: Option<string>, details: Option<string>, terminate: Option<bool>, isError: Option<bool>)

  datatype NewContext = NewContext(messages: seq<Message>, tools: seq<Tool>)

  datatype Env = Env(
    outside: nat -> seq<Action>,
    respond: (nat, seq<Message>) -> Response,
    toolArguments: (nat, Tool, ToolCall) -> Attempt<string>,
    beforeToolCall: Option<(nat, ToolCall, string) -> Attempt<Verdict>>,
    execute: (nat, ToolCall, string) -> Execution,
    afterToolCall: Option<(nat, ToolCall, string, ToolOutput, bool) -> Attempt<Override>>,
    schedule: nat -> nat,
    prepareNextTurn: nat -> Option<NewContext>,
    shouldStopAfterTurn: nat -> bool,
    toolExecution: ExecutionMode)
  {
    /** What becomes of a queue that is not drained between two moments. */
    function After(side: Side, w: Waiting, t0: nat, t1: nat): Waiting
      decreases t1
    {
      if t1 <= t0 then w else AfterAll(side, After(side, w, t0, t1 - 1), outside(t1 - 1))
    }

    /** The messages that other code enqueues between two moments. */
    function Enqueued(side: Side, t0: nat, t1: nat): seq<Message>
      decreases t1
    {
      if t1 <= t0 then [] else Enqueued(side, t0, t1 - 1) + EnqueuedByAll(side, outside(t1 - 1))
    }

    /** What other code leaves in a queue that is empty at first. */
    function Left(side: Side, t0: nat, t1: nat): seq<Message> {
      After(side, Waiting([], All), t0, t1).messages
    }

    /** Somebody aborts the run between two moments. */
    predicate Aborts(t0: nat, t1: nat) {
      exists t: nat :: t0 <= t < t1 && Abort in outside(t)
    }

    /** Nobody clears the queue between two moments. */
    predicate NeverClears(side: Side, t0: nat, t1: nat) {
      forall t: nat :: t0 <= t < t1 ==> Spares(side, outside(t))
    }

    /** Nobody switches the steering queue to draining everything between two moments. */
    predicate SteersOneAtATime(t0: nat, t1: nat) {
      forall t: nat :: t0 <= t < t1 ==> SetSteeringMode(All) !in outside(t)
    }

    /** Tool hooks and tools answer as functions of the call alone. */
    ghost predicate Stable() {
      && (forall t: nat, tool, call :: toolArguments(t, tool, call) == toolArguments(0, tool, call))
      && (forall t: nat, call, args :: execute(t, call, args) == execute(0, call, args))
      && (beforeToolCall.Some? ==>
            var f := beforeToolCall.value;
            forall t: nat, call, args :: f(t, call, args) == f(0, call, args))
      && (afterToolCall.Some? ==>
            var f := afterToolCall.value;
            forall t: nat, call, args, o, e :: f(t, call, args, o, e) == f(0, call, args, o, e))
    }
  }
}
