/** `prompt()` and `continue()`: whole runs of an agent whose listeners do not throw. */
module AgentRuns {
  import opened Messages
  import opened MessageQueue
  import opened Oracles
  import opened Events
  import opened Runtime
  import opened RunLog
  import opened AgentLoop

  /** A context for the loop that shares no array with the agent. */
  method CreateContextSnapshot(agent: Agent) returns (messages: MessageArray)
    ensures fresh(messages) && messages.items == agent.transcript.items
  {
    messages := new MessageArray(agent.transcript.items);
  }

  /** Every message twice. */
  function Doubled(ms: seq<Message>): seq<Message> {
    if ms == [] then [] else Doubled(ms[..|ms| - 1]) + [ms[|ms| - 1], ms[|ms| - 1]]
  }

  /** Why the snapshot matters: the injection of pending messages, seen from the two arrays it writes. The
      reducer puts each message into the agent's transcript and the loop puts it into its context, so each
      arrives once in each array if the arrays are different objects, and twice if they are the same one. */
  method InjectWithoutSnapshot(agent: Agent, context: MessageArray, pending: seq<Message>)
    modifies agent`streamingMessage, agent`pendingToolCalls, agent`errorMessage, agent.transcript, context
    ensures context != agent.transcript ==>
      && agent.transcript.items == old(agent.transcript.items) + pending
      && context.items == old(context.items) + pending
    ensures context == agent.transcript ==> context.items == old(context.items) + Doubled(pending)
  {
    for i := 0 to |pending|
      invariant context != agent.transcript ==>
        && agent.transcript.items == old(agent.transcript.items) + pending[..i]
        && context.items == old(context.items) + pending[..i]
      invariant context == agent.transcript ==> context.items == old(context.items) + Doubled(pending[..i])
    {
      var m := pending[i];
      assert pending[..i + 1] == pending[..i] + [m] && pending[..i + 1][..i] == pending[..i];
      agent.Absorb(MessageStart(m));
      agent.Absorb(MessageEnd(m));
      assert agent.transcript.items == agent.State().messages;
      context.Push(m);
    }
    assert pending[..|pending|] == pending;
  }

  /** The start of a run: a new abort signal, and a state without leftovers. */
  method BeginRun(agent: Agent, skipInitialSteeringPoll: bool)
    requires agent.Valid() && !agent.activeRun
    modifies agent
    ensures agent.Valid() && agent.activeRun && agent.isStreaming && !agent.aborted
    ensures agent.trace == [] && agent.clock == old(agent.clock)
    ensures agent.origin == Origin(agent.State(), agent.clock, agent.steering.accepted, agent.followUp.accepted,
      agent.steering.mode)
    ensures agent.State() == View(old(agent.transcript.items), None, old(agent.pendingToolCalls), None)
    ensures agent.skipInitialSteeringPoll == skipInitialSteeringPoll
    ensures agent.tools == old(agent.tools)
  {
    agent.activeRun, agent.isStreaming, agent.aborted := true, true, false;
    agent.streamingMessage, agent.errorMessage := None, None;
    agent.skipInitialSteeringPoll := skipInitialSteeringPoll;
    agent.trace := [];
    agent.origin := Origin(agent.State(), agent.clock, agent.steering.accepted, agent.followUp.accepted,
      agent.steering.mode);
  }

  /** The end of every run. */
  method FinishRun(agent: Agent)
    modifies agent`isStreaming, agent`streamingMessage, agent`pendingToolCalls, agent`activeRun
    ensures !agent.isStreaming && !agent.activeRun
    ensures agent.streamingMessage == None && agent.pendingToolCalls == {}
  {
    agent.isStreaming := false;
    agent.streamingMessage := None;
    agent.pendingToolCalls := {};
    agent.activeRun := false;
  }

  /** What a run was given, and what both queues had delivered when it was. */
  datatype Task = Task(start: seq<Message>, tools: seq<Tool>, prompts: seq<Message>,
    steered: seq<Message>, followed: seq<Message>)

  /** What a complete run leaves behind. */
  ghost predicate Outcome(agent: Agent, task: Task, log: seq<Turn>, newMessages: seq<Message>)
    reads agent, agent.transcript, agent.steering, agent.followUp
  {
    && agent.Idle() && agent.Conserved()
    && log != [] && Run(agent.env, task.start, task.tools, log) && MayEnd(log) && log[0].prompts == task.prompts
    && agent.trace == Trace(log)
    && newMessages == Delivered(log)
    && agent.transcript.items == task.start + newMessages
    && agent.steering.delivered == task.steered + Steered(log)
    && agent.followUp.delivered == task.followed + FollowedUp(log)
    && NothingLeft(agent, log)
    && Dated(log, agent.origin.clock, agent.clock)
  }

  /** What holds of a run that is still going on after some turns. */
  ghost predicate Ongoing(agent: Agent, task: Task, log: seq<Turn>, soFar: seq<Message>)
    reads agent, agent.transcript, agent.steering, agent.followUp
  {
    && agent.Valid() && agent.activeRun && agent.isStreaming
    && Explains(Given(agent.env, [AgentStart], task.start, task.tools, task.prompts), log, soFar, agent.trace, false)
    && agent.transcript.items == task.start + soFar
    && (exists inFlight, fromFollowUp :: Ledger(agent, task.steered, task.followed, log, inFlight, fromFollowUp))
    && Dated(log, agent.origin.clock, agent.clock)
  }

  /** The causes of further turns in a run: continuing batches and drained messages. */
  function Causes(log: seq<Turn>): nat {
    Continuations(log) + |Steered(log)| + |FollowedUp(log)|
  }

  /** A run that is observed for `limit` turns: the outcome if it ends within them, the state it is in if
      not. It does end if it has too few causes to go on for so long. */
  ghost predicate Observed(agent: Agent, task: Task, log: seq<Turn>, result: RunResult, limit: nat)
    reads agent, agent.transcript, agent.steering, agent.followUp
  {
    match result
    case Refused(_) => false
    case Settled(newMessages) => Outcome(agent, task, log, newMessages) && |log| <= limit
    case StillRunning(soFar) => Ongoing(agent, task, log, soFar) && |log| == limit && 1 + Causes(log) >= limit
  }

  /** The run began in this state. */
  twostate predicate BeganHere(agent: Agent)
    reads agent, agent.transcript, agent.steering, agent.followUp
  {
    && agent.origin.clock == old(agent.clock)
    && agent.origin.steering == old(agent.steering.accepted)
    && agent.origin.followUps == old(agent.followUp.accepted)
    && agent.origin.steeringMode == old(agent.steering.mode)
    && agent.origin.view.messages == old(agent.transcript.items)
  }

  /** After a complete run the agent has nothing to clean up: no streaming message, no pending call. */
  lemma CompleteRunsLeaveNothing(env: Env, start: seq<Message>, tools: seq<Tool>, log: seq<Turn>, v: View)
    requires Run(env, start, tools, log) && v.pending == {}
    ensures var w := ReduceAll(v, Trace(log));
      w.streaming == None && w.pending == {} && w.messages == v.messages + Delivered(log)
  {
    TranscriptAgreement(env, start, tools, log, v);
    var v1 := ReduceAll(v, [AgentStart]);
    assert v1 == Reduce(ReduceAll(v, []), AgentStart) == v;
    ReduceAppend(v, [AgentStart], Render(log));
    NothingPendingBetweenTurns(env, start, tools, log, v1);
    ReduceSnoc(v, [AgentStart] + Render(log), AgentEnd(Delivered(log)));
  }

  lemma NothingEndedYet()
    ensures Ended([AgentStart]) == []
  {
  }

  /** In the middle of a run, too, the transcript has grown by exactly what was delivered. */
  lemma TranscriptSoFar(env: Env, start: seq<Message>, tools: seq<Tool>, log: seq<Turn>, v: View)
    requires Run(env, start, tools, log)
    ensures ReduceAll(v, [AgentStart] + Render(log)).messages == v.messages + Delivered(log)
  {
    NothingEndedYet();
    hide *;
    RunEnds(env, start, tools, log);
    assert [] + Delivered(log) == Delivered(log);
    EndedAppend([AgentStart], Render(log));
    TranscriptIsEnded(v, [AgentStart] + Render(log));
  }

  /** Of what a queue had accepted by `start` and what was enqueued until `now`, the first part is delivered
      and the rest is still queued, in this order. With `polled`, the rest is exactly what was enqueued in
      the last `n` awaits. */
  ghost predicate NoneLost(env: Env, side: Side, accepted: seq<Message>, delivered: seq<Message>,
    queued: seq<Message>, start: nat, now: nat, n: nat, polled: bool)
  {
    && accepted + env.Enqueued(side, start, now) == delivered + queued
    && (polled ==>
          && start + n <= now
          && delivered == accepted + env.Enqueued(side, start, now - n)
          && queued == env.Enqueued(side, now - n, now))
  }

  lemma Cancel(a: seq<Message>, b: seq<Message>, q: seq<Message>)
    requires a + q == b + q
    ensures a == b
  {
    assert |a| == |b|;
    assert a == (a + q)[..|a|] == (b + q)[..|b|] == b;
  }

  lemma LateMessages(env: Env, side: Side, accepted: seq<Message>, delivered: seq<Message>, queued: seq<Message>,
      start: nat, now: nat, n: nat)
    requires start + n <= now && env.NeverClears(side, start, now) && queued == env.Left(side, now - n, now)
    requires accepted + env.Enqueued(side, start, now) == delivered + queued
    ensures NoneLost(env, side, accepted, delivered, queued, start, now, n, true)
  {
    assert env.NeverClears(side, now - n, now);
    hide Env.Enqueued, Env.Left, Env.NeverClears;
    var early, late := env.Enqueued(side, start, now - n), env.Enqueued(side, now - n, now);
    LeftIsEnqueued(env, side, now - n, now);
    EnqueuedSplit(env, side, start, now - n, now);
    Assoc(accepted, early, late);
    Cancel(accepted + early, delivered, late);
  }

  /** Conservation at the end of a run, for each queue separately: unless other code clears the queue, no
      message is lost, and unless the run was stopped early, only what was enqueued after the last poll is
      not delivered. */
  lemma NothingIsForgotten(agent: Agent, task: Task, log: seq<Turn>, newMessages: seq<Message>)
    requires Outcome(agent, task, log, newMessages)
    ensures agent.env.NeverClears(Steering, agent.origin.clock, agent.clock) ==>
      NoneLost(agent.env, Steering, agent.origin.steering, agent.steering.delivered, agent.steering.messages,
        agent.origin.clock, agent.clock, 3, !StoppedEarly(log))
    ensures agent.env.NeverClears(FollowUps, agent.origin.clock, agent.clock) ==>
      NoneLost(agent.env, FollowUps, agent.origin.followUps, agent.followUp.delivered, agent.followUp.messages,
        agent.origin.clock, agent.clock, 2, !StoppedEarly(log))
  {
    hide *;
    var o, now := agent.origin, agent.clock;
    Accounted(agent, task, log, newMessages);
    Kept(agent.env, Steering, o.steering, agent.steering.accepted, agent.steering.delivered, agent.steering.messages,
      o.clock, now, 3, StoppedEarly(log));
    Kept(agent.env, FollowUps, o.followUps, agent.followUp.accepted, agent.followUp.delivered, agent.followUp.messages,
      o.clock, now, 2, StoppedEarly(log));
  }

  lemma Kept(env: Env, side: Side, start: seq<Message>, accepted: seq<Message>, delivered: seq<Message>,
      queued: seq<Message>, t: nat, now: nat, n: nat, early: bool)
    requires env.NeverClears(side, t, now) ==> accepted == start + env.Enqueued(side, t, now)
    requires accepted == delivered + queued
    requires early || (t + n <= now && queued == env.Left(side, now - n, now))
    ensures env.NeverClears(side, t, now) ==> NoneLost(env, side, start, delivered, queued, t, now, n, !early)
  {
    if env.NeverClears(side, t, now) && !early { LateMessages(env, side, start, delivered, queued, t, now, n); }
  }

  /** Only other code aborts a run. If none does, the signal stays unset and every turn answers all its calls,
      however far the run is observed. */
  lemma UnabortedRuns(agent: Agent, task: Task, log: seq<Turn>, result: RunResult, limit: nat)
    requires Observed(agent, task, log, result, limit)
    requires !agent.env.Aborts(agent.origin.clock, agent.clock)
    ensures !agent.aborted
    ensures forall k :: 0 <= k < |log| && log[k].message.stopReason != Error && log[k].message.stopReason != Aborted ==>
      ResultsMatch(log[k].message.content, Results(log[k].batch.outs), false)
  {
    hide Run, Dated, MayEnd, ReduceAll, ResultsMatch, Env.Aborts, Delivered, Render;
    forall k | 0 <= k < |log| && log[k].message.stopReason != Error && log[k].message.stopReason != Aborted
      ensures ResultsMatch(log[k].message.content, Results(log[k].batch.outs), false)
    {
      NobodyAborted(agent.env, task.start, task.tools, log, agent.origin.clock, agent.clock, k);
    }
  }

  /** What the outcome says about the ledgers. */
  lemma Accounted(agent: Agent, task: Task, log: seq<Turn>, newMessages: seq<Message>)
    requires Outcome(agent, task, log, newMessages)
    ensures agent.steering.accepted == agent.steering.delivered + agent.steering.messages
    ensures agent.followUp.accepted == agent.followUp.delivered + agent.followUp.messages
    ensures agent.env.NeverClears(Steering, agent.origin.clock, agent.clock) ==>
      agent.steering.accepted == agent.origin.steering + agent.env.Enqueued(Steering, agent.origin.clock, agent.clock)
    ensures agent.env.NeverClears(FollowUps, agent.origin.clock, agent.clock) ==>
      agent.followUp.accepted == agent.origin.followUps + agent.env.Enqueued(FollowUps, agent.origin.clock, agent.clock)
    ensures StoppedEarly(log) ||
      (agent.origin.clock + 3 <= agent.clock &&
       agent.steering.messages == agent.env.Left(Steering, agent.clock - 3, agent.clock))
    ensures StoppedEarly(log) ||
      (agent.origin.clock + 2 <= agent.clock &&
       agent.followUp.messages == agent.env.Left(FollowUps, agent.clock - 2, agent.clock))
  {
    hide Run, MayEnd, ReduceAll, Env.After, Env.Enqueued, Env.Left, StoppedEarly;
    assert agent.steering.delivered + [] == agent.steering.delivered;
    assert agent.followUp.delivered + [] == agent.followUp.delivered;
  }

  /** At the end of a run the agent has nothing to clean up, and its state is that of the whole trace. */
  lemma Completed(agent: Agent, task: Task, newMessages: seq<Message>, log: seq<Turn>)
    requires agent.Balanced()
    requires agent.origin.view.messages == task.start && agent.origin.view.pending == {}
    requires Explains(Given(agent.env, [AgentStart], task.start, task.tools, task.prompts), log, newMessages,
      agent.trace, true)
    ensures log != [] && Run(agent.env, task.start, task.tools, log) && MayEnd(log) && log[0].prompts == task.prompts
    ensures agent.trace == Trace(log) && newMessages == Delivered(log)
    ensures agent.streamingMessage == None && agent.pendingToolCalls == {}
    ensures agent.transcript.items == task.start + newMessages
  {
    hide Run, ReduceAll, MayEnd;
    CompleteRunsLeaveNothing(agent.env, task.start, task.tools, log, agent.origin.view);
  }

  /** Settles a complete run. */
  method Settle(agent: Agent, ghost task: Task, newMessages: seq<Message>, ghost log: seq<Turn>)
    requires agent.Valid() && agent.activeRun
    requires agent.origin.view.messages == task.start && agent.origin.view.pending == {}
    requires Explains(Given(agent.env, [AgentStart], task.start, task.tools, task.prompts), log, newMessages,
      agent.trace, true)
    requires Ledger(agent, task.steered, task.followed, log, [], false) && NothingLeft(agent, log)
    requires Dated(log, agent.origin.clock, agent.clock)
    modifies agent`isStreaming, agent`streamingMessage, agent`pendingToolCalls, agent`activeRun
    ensures Outcome(agent, task, log, newMessages)
  {
    hide Run, ReduceAll, Trace, MayEnd, NothingLeft, Explains, Agent.Conserved, Delivered, Steered, FollowedUp;
    Completed(agent, task, newMessages, log);
    FinishRun(agent);
  }

  datatype RunResult =
    | Refused(reason: Refusal)
    | Settled(newMessages: seq<Message>)
    | StillRunning(soFar: seq<Message>)

  lemma LedgerAtEnd(agent: Agent, steered: seq<Message>, followed: seq<Message>, log: seq<Turn>, fromFollowUp: bool)
    requires Ledger(agent, steered, followed, log, [], fromFollowUp)
    ensures Ledger(agent, steered, followed, log, [], false)
  {
  }

  /** A run that has not ended is going on, and its turns had causes. */
  lemma Unfinished(agent: Agent, task: Task, newMessages: seq<Message>, log: seq<Turn>, inFlight: seq<Message>,
      fromFollowUp: bool)
    requires agent.Valid() && agent.activeRun && agent.isStreaming && agent.origin.view.messages == task.start
    requires Explains(Given(agent.env, [AgentStart], task.start, task.tools, task.prompts), log, newMessages,
      agent.trace, false)
    requires Ledger(agent, task.steered, task.followed, log, inFlight, fromFollowUp)
    requires Dated(log, agent.origin.clock, agent.clock)
    ensures Ongoing(agent, task, log, newMessages) && |log| <= 1 + Causes(log)
  {
    hide Run, ReduceAll, Ledger, Agent.Conserved;
    TurnBound(agent.env, task.start, task.tools, log);
    assert agent.trace == [AgentStart] + Render(log);
    TranscriptSoFar(agent.env, task.start, task.tools, log, agent.origin.view);
  }

  /** After the last observed turn: settles a run that has ended, and reports one that has not. */
  method Observe(agent: Agent, ghost task: Task, newMessages: seq<Message>, finished: bool, limit: nat,
      ghost log: seq<Turn>, ghost inFlight: seq<Message>, ghost fromFollowUp: bool)
    returns (result: RunResult)
    requires agent.Valid() && agent.activeRun && agent.isStreaming
    requires agent.origin.view.messages == task.start && agent.origin.view.pending == {}
    requires Explains(Given(agent.env, [AgentStart], task.start, task.tools, task.prompts), log, newMessages,
      agent.trace, finished)
    requires Ledger(agent, task.steered, task.followed, log, inFlight, fromFollowUp)
    requires finished ==> inFlight == [] && NothingLeft(agent, log)
    requires Dated(log, agent.origin.clock, agent.clock)
    requires |log| <= limit && (!finished ==> |log| == limit)
    modifies agent`isStreaming, agent`streamingMessage, agent`pendingToolCalls, agent`activeRun
    ensures Observed(agent, task, log, result, limit)
  {
    hide Outcome, Ongoing, NothingLeft, Agent.Valid, Explains, Ledger, Causes;
    if finished {
      LedgerAtEnd(agent, task.steered, task.followed, log, fromFollowUp);
      Settle(agent, task, newMessages, log);
      result := Settled(newMessages);
    } else {
      Unfinished(agent, task, newMessages, log, inFlight, fromFollowUp);
      result := StillRunning(newMessages);
    }
  }

  /** A run with prompts, observed for at most `limit` turns. `source` is the queue the prompts were
      drained from, if any. */
  method RunPromptMessages(agent: Agent, prompts: seq<Message>, skipInitialSteeringPoll: bool, limit: nat,
      ghost source: PendingMessageQueue?)
    returns (result: RunResult, ghost log: seq<Turn>)
    requires agent.Valid() && !agent.activeRun && limit > 0 && agent.pendingToolCalls == {}
    requires source == null || source == agent.steering || source == agent.followUp
    requires agent.steering.inFlight == (if source == agent.steering then prompts else [])
    requires agent.followUp.inFlight == (if source == agent.followUp then prompts else [])
    modifies agent, agent.transcript, agent.steering, agent.followUp
    ensures BeganHere(agent)
    ensures Observed(agent, Task(old(agent.transcript.items), old(agent.tools), prompts,
        WithPrompts(old(agent.steering.delivered), source == agent.steering, prompts),
        WithPrompts(old(agent.followUp.delivered), source == agent.followUp, prompts)), log, result, limit)
    ensures |log| > 0 && (skipInitialSteeringPoll ==> log[0].steered == [])
    ensures agent.OneAtATimeSoFar() ==> Paced(log)
  {
    hide Explains, Ledger, Paced, Observed, NothingLeft;
    ghost var task := Task(agent.transcript.items, agent.tools, prompts,
      WithPrompts(agent.steering.delivered, source == agent.steering, prompts),
      WithPrompts(agent.followUp.delivered, source == agent.followUp, prompts));
    BeginRun(agent, skipInitialSteeringPoll);
    var tools := agent.tools;
    var context := CreateContextSnapshot(agent);
    var newMessages, finished; ghost var inFlight, fromFollowUp;
    newMessages, finished, log, inFlight, fromFollowUp := RunAgentLoop(agent, prompts, context, tools, limit, source);
    assert [] + [AgentStart] == [AgentStart];
    result := Observe(agent, task, newMessages, finished, limit, log, inFlight, fromFollowUp);
  }

  /** A run without prompts from the current transcript. */
  method RunContinuation(agent: Agent, limit: nat) returns (result: RunResult, ghost log: seq<Turn>)
    requires agent.Idle() && limit > 0
    requires agent.transcript.items != [] && !agent.transcript.items[|agent.transcript.items| - 1].Assistant?
    modifies agent, agent.transcript, agent.steering, agent.followUp
    ensures BeganHere(agent)
    ensures Observed(agent, Task(old(agent.transcript.items), old(agent.tools), [],
        old(agent.steering.delivered), old(agent.followUp.delivered)), log, result, limit)
    ensures |log| > 0
    ensures agent.OneAtATimeSoFar() ==> Paced(log)
  {
    hide Explains, Ledger, Paced, Observed, NothingLeft;
    ghost var task := Task(agent.transcript.items, agent.tools, [], agent.steering.delivered, agent.followUp.delivered);
    BeginRun(agent, false);
    var tools := agent.tools;
    var context := CreateContextSnapshot(agent);
    var refused, newMessages, finished; ghost var inFlight, fromFollowUp;
    refused, newMessages, finished, log, inFlight, fromFollowUp := RunAgentLoopContinue(agent, context, tools, limit);
    assert [] + [AgentStart] == [AgentStart];
    result := Observe(agent, task, newMessages, finished, limit, log, inFlight, fromFollowUp);
  }

  /** `prompt()`. A call during a run is refused and changes nothing. */
  method Prompt(agent: Agent, messages: seq<Message>, limit: nat) returns (result: RunResult, ghost log: seq<Turn>)
    requires agent.Valid() && (!agent.activeRun ==> agent.Idle()) && limit > 0
    modifies agent, agent.transcript, agent.steering, agent.followUp
    ensures old(agent.activeRun) ==> result == Refused(AlreadyProcessing) && Untouched(agent)
    ensures !old(agent.activeRun) ==>
      && BeganHere(agent)
      && Observed(agent, Task(old(agent.transcript.items), old(agent.tools), messages,
           old(agent.steering.delivered), old(agent.followUp.delivered)), log, result, limit)
      && (agent.OneAtATimeSoFar() ==> Paced(log))
  {
    hide Observed, Paced;
    log := [];
    if agent.activeRun {
      return Refused(AlreadyProcessing), [];
    }
    result, log := RunPromptMessages(agent, messages, false, limit, null);
  }

  twostate predicate Untouched(agent: Agent)
    reads agent, agent.transcript, agent.steering, agent.followUp
  {
    unchanged(agent) && unchanged(agent.transcript) && unchanged(agent.steering) && unchanged(agent.followUp)
  }

  twostate predicate SameContents(agent: Agent)
    reads agent, agent.transcript, agent.steering, agent.followUp
  {
    && agent.transcript.items == old(agent.transcript.items)
    && agent.steering.messages == old(agent.steering.messages)
    && agent.followUp.messages == old(agent.followUp.messages)
  }

  /** A run with these prompts, of which the steering or the follow-up queue has delivered some. */
  twostate predicate Continues(agent: Agent, prompts: seq<Message>, steered: seq<Message>, followed: seq<Message>,
    new result: RunResult, new log: seq<Turn>, limit: nat)
    reads agent, agent.transcript, agent.steering, agent.followUp
  {
    && BeganHere(agent)
    && Observed(agent, Task(old(agent.transcript.items), old(agent.tools), prompts,
         old(agent.steering.delivered) + steered, old(agent.followUp.delivered) + followed), log, result, limit)
    && (agent.OneAtATimeSoFar() ==> Paced(log))
  }

  /** What `continue()` does with an idle agent. Without messages it refuses; after any message but an
      assistant's it runs from the transcript; after an assistant message it runs with what it drains from the
      steering queue, or else from the follow-up queue, and refuses if both are empty. */
  twostate predicate Continued(agent: Agent, new result: RunResult, new log: seq<Turn>, limit: nat)
    reads agent, agent.transcript, agent.steering, agent.followUp
  {
    var items := old(agent.transcript.items);
    var steering, followUps := old(agent.steering.messages), old(agent.followUp.messages);
    if items == [] then result == Refused(NoMessages) && agent.Idle() && SameContents(agent)
    else if !items[|items| - 1].Assistant? then Continues(agent, [], [], [], result, log, limit)
    else if steering != [] then
      var prompts := if old(agent.steering.mode) == All then steering else [steering[0]];
      Continues(agent, prompts, prompts, [], result, log, limit) && |log| > 0 && log[0].steered == []
    else if followUps != [] then
      var prompts := if old(agent.followUp.mode) == All then followUps else [followUps[0]];
      Continues(agent, prompts, [], prompts, result, log, limit)
    else result == Refused(AssistantAtEnd) && agent.Idle() && SameContents(agent)
  }

  /** Drains one queue of an idle agent: what it takes will be the prompts of a run. */
  method DrainIdle(agent: Agent, queue: PendingMessageQueue) returns (prompts: seq<Message>)
    requires agent.Idle() && (queue == agent.steering || queue == agent.followUp)
    modifies queue
    ensures prompts == if queue.mode == All || old(queue.messages) == [] then old(queue.messages)
                       else [old(queue.messages)[0]]
    ensures agent.Valid() && !agent.activeRun && agent.pendingToolCalls == {}
    ensures queue.inFlight == prompts && queue.mode == old(queue.mode)
    ensures queue.delivered == old(queue.delivered) && queue.accepted == old(queue.accepted)
    ensures agent.steering != agent.followUp
    ensures agent.steering.inFlight == (if queue == agent.steering then prompts else [])
    ensures agent.followUp.inFlight == (if queue == agent.followUp then prompts else [])
    ensures prompts == [] ==> agent.Idle() && queue.messages == old(queue.messages)
  {
    hide ReduceAll;
    prompts := queue.Drain();
    assert [] + prompts == prompts;
    assert old(queue.messages) != [] ==> old(queue.messages)[..1] == [old(queue.messages)[0]];
  }

  /** `continue()` after an assistant message: drained messages become the prompts of a run, and steering
      messages are then not polled again at once. */
  method ContinueFromQueues(agent: Agent, limit: nat) returns (result: RunResult, ghost log: seq<Turn>)
    requires agent.Idle() && limit > 0
    requires agent.transcript.items != [] && agent.transcript.items[|agent.transcript.items| - 1].Assistant?
    modifies agent, agent.transcript, agent.steering, agent.followUp
    ensures Continued(agent, result, log, limit)
  {
    hide Observed, Paced, Agent.Idle, Agent.Valid, Agent.OneAtATimeSoFar;
    log := [];
    assert agent.steering.delivered + [] == agent.steering.delivered;
    assert agent.followUp.delivered + [] == agent.followUp.delivered;
    var queuedSteering := DrainIdle(agent, agent.steering);
    if |queuedSteering| > 0 {
      result, log := RunPromptMessages(agent, queuedSteering, true, limit, agent.steering);
      return;
    }
    var queuedFollowUps := DrainIdle(agent, agent.followUp);
    if |queuedFollowUps| > 0 {
      result, log := RunPromptMessages(agent, queuedFollowUps, false, limit, agent.followUp);
      return;
    }
    return Refused(AssistantAtEnd), [];
  }

  /** `continue()`. A call during a run drains nothing. */
  method Continue(agent: Agent, limit: nat) returns (result: RunResult, ghost log: seq<Turn>)
    requires agent.Valid() && (!agent.activeRun ==> agent.Idle()) && limit > 0
    modifies agent, agent.transcript, agent.steering, agent.followUp
    ensures old(agent.activeRun) ==> result == Refused(AlreadyProcessing) && Untouched(agent)
    ensures !old(agent.activeRun) ==> Continued(agent, result, log, limit)
  {
    hide Observed, Paced;
    log := [];
    if agent.activeRun {
      return Refused(AlreadyProcessing), [];
    }
    if |agent.transcript.items| == 0 {
      return Refused(NoMessages), [];
    }
    if agent.transcript.items[|agent.transcript.items| - 1].Assistant? {
      result, log := ContinueFromQueues(agent, limit);
    } else {
      assert agent.steering.delivered + [] == agent.steering.delivered;
      assert agent.followUp.delivered + [] == agent.followUp.delivered;
      result, log := RunContinuation(agent, limit);
    }
  }
}
