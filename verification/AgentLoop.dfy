/** The agent loop: turns, tool batches, steering and follow-up messages. */
module AgentLoop {
  import opened Messages
  import opened MessageQueue
  import opened Oracles
  import opened Events
  import opened Runtime
  import opened Streaming
  import opened ToolAnswers
  import opened ToolBatch
  import opened ToolExecution
  import opened RunLog

  method ExecuteToolCalls(agent: Agent, tools: seq<Tool>, calls: seq<ToolCall>)
    returns (outs: seq<Finalized>, ghost batch: Batch, ghost times: Times)
    requires agent.Valid() && agent.activeRun
    modifies agent, agent.transcript, agent.steering, agent.followUp
    ensures agent.Emitted(BatchEvents(batch)) && batch.outs == outs
    ensures Answers(agent.env, tools, calls, AnswersIn(batch), times)
    ensures times.since == agent.origin.clock && times.until <= agent.clock
    ensures batch.sequential == RunsSequentially(agent.env, tools, calls)
    ensures batch.sequential <==>
      (agent.env.toolExecution == Sequential ||
       exists i :: 0 <= i < |calls| && MeansSequentialTool(tools, calls[i].name))
    ensures !batch.sequential ==> ParallelPhase(batch.phase, outs, batch.updates, batch.through)
  {
    hide Answers, ParallelPhase, RunsSequentially, MeansSequentialTool;
    ModeOfCalls(agent.env, tools, calls);
    ghost var updates, through;
    if RunsSequentially(agent.env, tools, calls) {
      outs, updates, through, times := ExecuteToolCallsSequential(agent, tools, calls);
      batch := Batch(true, outs, updates, through, []);
    } else {
      ghost var phase;
      outs, updates, through, phase, times := ExecuteToolCallsParallel(agent, tools, calls);
      batch := Batch(false, outs, updates, through, phase);
    }
  }

  /** Injects one drained message; `queue` is where it came from. */
  method InjectOne(agent: Agent, context: MessageArray, m: Message, ghost queue: PendingMessageQueue)
    requires agent.Valid() && agent.activeRun && context != agent.transcript
    requires queue == agent.steering || queue == agent.followUp
    requires queue.inFlight != [] && queue.inFlight[0] == m
    modifies agent, agent.transcript, agent.steering, agent.followUp, context
    ensures agent.Logged([MessageStart(m), MessageEnd(m)])
    ensures context.items == old(context.items) + [m]
    ensures queue.delivered == old(queue.delivered) + [m] && queue.inFlight == old(queue.inFlight)[1..]
    ensures queue == agent.steering ==> agent.followUp.LedgerKept()
    ensures queue == agent.followUp ==> agent.steering.LedgerKept()
  {
    agent.EmitMessage(m);
    queue.Deliver();
    context.Push(m);
  }

  /** Injects all pending messages before the next response. */
  method InjectPending(agent: Agent, context: MessageArray, pending: seq<Message>, ghost queue: PendingMessageQueue)
    requires agent.Valid() && agent.activeRun && context != agent.transcript
    requires queue == agent.steering || queue == agent.followUp
    requires queue.inFlight == pending
    modifies agent, agent.transcript, agent.steering, agent.followUp, context
    ensures agent.Logged(Pairs(pending))
    ensures context.items == old(context.items) + pending
    ensures queue.delivered == old(queue.delivered) + pending && queue.inFlight == []
    ensures queue == agent.steering ==> agent.followUp.LedgerKept()
    ensures queue == agent.followUp ==> agent.steering.LedgerKept()
  {
    for i := 0 to |pending|
      invariant agent.Logged(Pairs(pending[..i]))
      invariant context.items == old(context.items) + pending[..i]
      invariant queue.delivered == old(queue.delivered) + pending[..i] && queue.inFlight == pending[i..]
      invariant queue == agent.steering ==> agent.followUp.LedgerKept()
      invariant queue == agent.followUp ==> agent.steering.LedgerKept()
    {
      assert pending[..i + 1] == pending[..i] + [pending[i]];
      PairsSnoc(pending[..i], pending[i]);
      Assoc(old(agent.trace), Pairs(pending[..i]), [MessageStart(pending[i]), MessageEnd(pending[i])]);
      Assoc(old(context.items), pending[..i], [pending[i]]);
      Assoc(old(queue.delivered), pending[..i], [pending[i]]);
      InjectOne(agent, context, pending[i], queue);
    }
    assert pending[..|pending|] == pending;
  }

  /** Only the messages that came from `queue` moved: `pending` went from in flight to delivered. */
  twostate predicate OnlyDelivered(agent: Agent, queue: PendingMessageQueue, pending: seq<Message>)
    reads agent, agent.transcript, agent.steering, agent.followUp, queue
  {
    && queue.delivered == old(queue.delivered) + pending && queue.inFlight == []
    && (queue == agent.steering ==> agent.followUp.LedgerKept())
    && (queue == agent.followUp ==> agent.steering.LedgerKept())
  }

  /** What has been emitted when a turn begins. The caller opens the first turn itself. */
  ghost predicate AtTurnStart(trace: seq<Event>, base: seq<Event>, firstTurn: bool, prompts: seq<Message>) {
    if firstTurn then trace == base + ([TurnStart] + Pairs(prompts)) else trace == base && prompts == []
  }

  lemma Opening(base: seq<Event>, prompts: seq<Message>, pending: seq<Message>)
    ensures base + ([TurnStart] + Pairs(prompts)) + Pairs(pending) == base + ([TurnStart] + Pairs(prompts + pending))
  {
    PairsAppend(prompts, pending);
    Assoc([TurnStart], Pairs(prompts), Pairs(pending));
    Assoc(base, [TurnStart] + Pairs(prompts), Pairs(pending));
  }

  /** The start of a turn and the messages injected into it. */
  method BeginTurn(agent: Agent, context: MessageArray, firstTurn: bool, pending: seq<Message>,
      ghost queue: PendingMessageQueue, ghost base: seq<Event>, ghost prompts: seq<Message>)
    requires agent.Valid() && agent.activeRun && context != agent.transcript
    requires queue == agent.steering || queue == agent.followUp
    requires queue.inFlight == pending
    requires AtTurnStart(agent.trace, base, firstTurn, prompts)
    modifies agent, agent.transcript, agent.steering, agent.followUp, context
    ensures agent.Valid() && agent.origin == old(agent.origin) && agent.Undisturbed()
    ensures agent.trace == base + ([TurnStart] + Pairs(prompts + pending))
    ensures context.items == old(context.items) + pending
    ensures OnlyDelivered(agent, queue, pending)
  {
    if !firstTurn {
      agent.ProcessEvents(TurnStart);
      assert [TurnStart] + Pairs(prompts) == [TurnStart];
    }
    assert agent.trace == base + ([TurnStart] + Pairs(prompts));
    Opening(base, prompts, pending);
    InjectPending(agent, context, pending, queue);
  }

  /** Executes the tool calls of a message, if there are any, and appends the results to the context. */
  method RunTools(agent: Agent, context: MessageArray, tools: seq<Tool>, message: AssistantMessage)
    returns (outs: seq<Finalized>, ghost batch: Batch, ghost times: Times)
    requires agent.Valid() && agent.activeRun && context != agent.transcript && !Failed(message)
    modifies agent, agent.transcript, agent.steering, agent.followUp, context
    ensures agent.Emitted(BatchEvents(batch)) && batch.outs == outs
    ensures ValidBatch(agent.env, tools, message, batch, times)
    ensures times.since == agent.origin.clock && times.until <= agent.clock
    ensures context.items == old(context.items) + Results(outs)
  {
    var toolCalls := ToolCalls(message);
    outs, batch, times := [], NO_BATCH, Times(agent.origin.clock, [], agent.clock);
    if |toolCalls| > 0 {
      outs, batch, times := ExecuteToolCalls(agent, tools, toolCalls);
    }
    context.PushAll(Results(outs));
  }

  /** The response of a turn and its tool batch. */
  method Respond(agent: Agent, context: MessageArray, tools: seq<Tool>)
    returns (message: AssistantMessage, outs: seq<Finalized>, ghost stream: seq<Event>, ghost batch: Batch,
      ghost times: Times, ghost asked: nat)
    requires agent.Valid() && agent.activeRun && context != agent.transcript
    modifies agent, agent.transcript, agent.steering, agent.followUp, context
    ensures agent.Emitted(stream + BatchEvents(batch)) && batch.outs == outs
    ensures Answered(agent.env, asked, old(context.items), stream, message)
    ensures ValidBatch(agent.env, tools, message, batch, times)
    ensures times.since == agent.origin.clock && times.until <= agent.clock
    ensures context.items == old(context.items) + ([message] + Results(outs))
  {
    ghost var shots;
    message, stream, shots, asked := StreamAssistantResponse(agent, context);
    if Failed(message) {
      outs, batch, times := [], NO_BATCH, Times(agent.origin.clock, [], agent.clock);
      assert stream + BatchEvents(batch) == stream;
      assert [message] + Results(outs) == [message];
    } else {
      Assoc(old(context.items), [message], []);
      outs, batch, times := RunTools(agent, context, tools, message);
      Assoc(old(agent.trace), stream, BatchEvents(batch));
      Assoc(old(context.items), [message], Results(outs));
    }
  }

  lemma InjectedIs(t: Turn, pending: seq<Message>, fromFollowUp: bool)
    requires t.steered == (if fromFollowUp then [] else pending)
    requires t.followed == (if fromFollowUp then pending else [])
    ensures Injected(t) == t.prompts + pending
  {
  }

  /** One turn up to and including `turn_end`: injection, response, tool batch. */
  method RunTurn(agent: Agent, context: MessageArray, tools: seq<Tool>, firstTurn: bool, pending: seq<Message>,
      newMessages: seq<Message>, ghost queue: PendingMessageQueue, ghost base: seq<Event>, ghost prompts: seq<Message>)
    returns (message: AssistantMessage, outs: seq<Finalized>, newMessages': seq<Message>, ghost t: Turn)
    requires agent.Valid() && agent.activeRun && context != agent.transcript
    requires queue == agent.steering || queue == agent.followUp
    requires queue.inFlight == pending
    requires AtTurnStart(agent.trace, base, firstTurn, prompts)
    modifies agent, agent.transcript, agent.steering, agent.followUp, context
    ensures agent.Valid() && agent.origin == old(agent.origin) && agent.Undisturbed()
    ensures agent.trace == base + TurnEvents(t)
    ensures ValidTurn(agent.env, t)
    ensures t.message == message && t.batch.outs == outs && t.tools == tools && t.prompts == prompts
    ensures t.steered == (if queue == agent.steering then pending else [])
    ensures t.followed == (if queue == agent.steering then [] else pending)
    ensures t.request == old(context.items) + pending
    ensures t.replaced == None && !t.stopped
    ensures t.times.since == agent.origin.clock && t.times.until <= agent.clock
    ensures context.items == old(context.items) + (pending + [message] + Results(outs))
    ensures newMessages' == newMessages + (pending + [message] + Results(outs))
    ensures OnlyDelivered(agent, queue, pending)
  {
    hide Agent.Valid;
    BeginTurn(agent, context, firstTurn, pending, queue, base, prompts);
    ghost var opening, request := [TurnStart] + Pairs(prompts + pending), context.items;
    ghost var stream, batch, times, asked;
    message, outs, stream, batch, times, asked := Respond(agent, context, tools);
    newMessages' := newMessages + pending + [message] + Results(outs);
    ghost var fromFollowUp := queue != agent.steering;
    t := Turn(prompts, if fromFollowUp then [] else pending, if fromFollowUp then pending else [],
      request, asked, stream, message, tools, batch, None, false, 0, 0, times);
    InjectedIs(t, pending, fromFollowUp);
    TurnAssembled(base, t, opening, prompts + pending);
    agent.ProcessEvents(TurnEnd(message, Results(outs)));
    TurnSums(old(context.items), newMessages, pending, message, Results(outs));
  }

  lemma TurnSums(items: seq<Message>, newMessages: seq<Message>, pending: seq<Message>, m: Message, rs: seq<Message>)
    ensures items + pending + ([m] + rs) == items + (pending + [m] + rs)
    ensures newMessages + pending + [m] + rs == newMessages + (pending + [m] + rs)
  {
  }

  lemma TurnAssembled(base: seq<Event>, t: Turn, opening: seq<Event>, injected: seq<Message>)
    requires Injected(t) == injected && opening == [TurnStart] + Pairs(injected)
    ensures base + opening + (t.stream + BatchEvents(t.batch)) + [TurnEnd(t.message, Results(t.batch.outs))]
      == base + TurnEvents(t)
  {
    var d, e := BatchEvents(t.batch), [TurnEnd(t.message, Results(t.batch.outs))];
    assert TurnHead(t) == opening + t.stream;
    Assoc(base, opening, t.stream + d);
    Assoc(opening, t.stream, d);
    Assoc(base, TurnHead(t) + d, e);
  }

  /** The `prepareNextTurn` hook, which may replace the context and the tools. */
  method PrepareNextTurn(agent: Agent, context: MessageArray, tools: seq<Tool>)
    returns (context': MessageArray, tools': seq<Tool>, ghost replaced: Option<NewContext>)
    requires agent.Valid() && agent.activeRun && context != agent.transcript
    modifies agent, agent.transcript, agent.steering, agent.followUp
    ensures agent.Emitted([]) && agent.trace == old(agent.trace)
    ensures replaced == agent.env.prepareNextTurn(old(agent.clock))
    ensures context' != agent.transcript
    ensures replaced.None? ==> context' == context && tools' == tools
    ensures replaced.Some? ==>
      fresh(context') && context'.items == replaced.value.messages && tools' == replaced.value.tools
  {
    var snapshot := agent.env.prepareNextTurn(agent.clock);
    agent.Await();
    replaced := snapshot;
    if snapshot.Some? {
      context' := new MessageArray(snapshot.value.messages);
      tools' := snapshot.value.tools;
    } else {
      context', tools' := context, tools;
    }
  }

  lemma AfterHooks(env: Env, t: Turn, u: Turn)
    requires u == t.(replaced := u.replaced, stopped := u.stopped, preparedAt := u.preparedAt, judgedAt := u.judgedAt)
    requires if Failed(u.message) then u.replaced.None? && !u.stopped
             else u.replaced == env.prepareNextTurn(u.preparedAt) && u.stopped == env.shouldStopAfterTurn(u.judgedAt)
    ensures HooksObeyed(env, u)
    ensures ValidTurn(env, u) == ValidTurn(env, t)
    ensures TurnEvents(u) == TurnEvents(t)
  {
  }

  /** The hooks after a turn `t` that did not fail; `u` is the turn with their answers. */
  method AfterTurn(agent: Agent, context: MessageArray, tools: seq<Tool>, failed: bool, ghost t: Turn)
    returns (context': MessageArray, tools': seq<Tool>, stop: bool, ghost u: Turn)
    requires agent.Valid() && agent.activeRun && context != agent.transcript
    requires failed == Failed(t.message) && t.replaced.None? && !t.stopped
    modifies agent, agent.transcript, agent.steering, agent.followUp
    ensures agent.Emitted([]) && agent.trace == old(agent.trace)
    ensures context' != agent.transcript
    ensures u == t.(replaced := u.replaced, stopped := stop, preparedAt := u.preparedAt, judgedAt := u.judgedAt)
    ensures HooksObeyed(agent.env, u) && ValidTurn(agent.env, u) == ValidTurn(agent.env, t)
    ensures TurnEvents(u) == TurnEvents(t)
    ensures u.replaced.None? ==> context' == context && tools' == tools
    ensures u.replaced.Some? ==>
      fresh(context') && context'.items == u.replaced.value.messages && tools' == u.replaced.value.tools
    ensures failed ==> !stop
  {
    hide ValidTurn, TurnEvents;
    context', tools', stop, u := context, tools, false, t;
    if !failed {
      ghost var preparedAt, replaced := agent.clock, None;
      context', tools', replaced := PrepareNextTurn(agent, context, tools);
      ghost var judgedAt := agent.clock;
      stop := agent.env.shouldStopAfterTurn(agent.clock);
      u := t.(replaced := replaced, stopped := stop, preparedAt := preparedAt, judgedAt := judgedAt);
      agent.Await();
    }
    AfterHooks(agent.env, t, u);
  }

  /** What a run is given. */
  datatype Given = Given(env: Env, base: seq<Event>, start: seq<Message>, tools: seq<Tool>, prompts: seq<Message>)

  /** What the loop has at a moment. */
  datatype Have = Have(trace: seq<Event>, context: seq<Message>, tools: seq<Tool>, newMessages: seq<Message>,
    since: nat, now: nat)

  /** The prompts that were emitted ahead of the first turn, while it has not run yet. */
  function Opened(g: Given, log: seq<Turn>): seq<Message> {
    if log == [] then g.prompts else []
  }

  /** The trace, the result and the context agree with the turns so far. */
  ghost predicate Agree(g: Given, h: Have, log: seq<Turn>) {
    && Run(g.env, g.start, g.tools, log)
    && AtTurnStart(h.trace, g.base + Render(log), log == [], Opened(g, log))
    && h.newMessages == Delivered(log) + Opened(g, log)
    && h.context == ContextAfter(g.start, log) + Opened(g, log)
    && h.tools == ToolsAfter(g.tools, log)
    && (log != [] ==> log[0].prompts == g.prompts)
    && Dated(log, h.since, h.now)
  }

  ghost function Snapshot(agent: Agent, context: MessageArray, tools: seq<Tool>, newMessages: seq<Message>): Have
    reads agent, context
  {
    Have(agent.trace, context.items, tools, newMessages, agent.origin.clock, agent.clock)
  }

  /** Where the drained messages are. */
  ghost predicate Ledger(agent: Agent, steered0: seq<Message>, followed0: seq<Message>, log: seq<Turn>,
      pending: seq<Message>, fromFollowUp: bool)
    reads agent, agent.steering, agent.followUp
  {
    && agent.steering.delivered == steered0 + Steered(log)
    && agent.followUp.delivered == followed0 + FollowedUp(log)
    && agent.steering.inFlight == (if fromFollowUp then [] else pending)
    && agent.followUp.inFlight == (if fromFollowUp then pending else [])
  }

  /** Why the inner loop goes on. */
  ghost predicate Reason(log: seq<Turn>, hasMoreToolCalls: bool, pending: seq<Message>, fromFollowUp: bool) {
    if log == [] then !fromFollowUp && hasMoreToolCalls
    else
      var t := log[|log| - 1];
      && !Failed(t.message) && !t.stopped
      && (if fromFollowUp then pending != [] && !Continues(t) else hasMoreToolCalls == Continues(t))
  }

  /** The run may end after its last turn. */
  ghost predicate MayEnd(log: seq<Turn>) {
    log != [] &&
    var t := log[|log| - 1];
    Failed(t.message) || t.stopped || !Continues(t)
  }

  /** A run ends after a failed response, a requested stop, or results that all ask to stop, and only then. */
  lemma RunsEndWhen(log: seq<Turn>)
    requires log != []
    ensures var t := log[|log| - 1];
      MayEnd(log) <==>
        || t.message.stopReason == Error || t.message.stopReason == Aborted || t.stopped
        || forall i :: 0 <= i < |t.batch.outs| ==> t.batch.outs[i].output.terminate == Some(true)
  {
  }

  /** At most one steering message per turn. */
  ghost predicate Paced(log: seq<Turn>) {
    forall k :: 0 <= k < |log| ==> |log[k].steered| <= 1
  }

  ghost predicate NeverReplaced(log: seq<Turn>) {
    forall k :: 0 <= k < |log| ==> log[k].replaced.None?
  }

  /** How a turn moves the loop on. */
  ghost predicate TurnDone(g: Given, h: Have, log: seq<Turn>, pending: seq<Message>, fromFollowUp: bool, t: Turn,
      h': Have) {
    && ValidTurn(g.env, t) && HooksObeyed(g.env, t)
    && t.prompts == Opened(g, log)
    && t.steered == (if fromFollowUp then [] else pending)
    && t.followed == (if fromFollowUp then pending else [])
    && t.request == h.context + pending && t.tools == h.tools
    && h'.trace == g.base + Render(log) + TurnEvents(t)
    && h'.newMessages == h.newMessages + (pending + [t.message] + Results(t.batch.outs))
    && h'.context == (if t.replaced.Some? then t.replaced.value.messages
                      else h.context + (pending + [t.message] + Results(t.batch.outs)))
    && h'.tools == (if t.replaced.Some? then t.replaced.value.tools else h.tools)
    && h'.since == h.since == t.times.since && h.now <= h'.now && t.times.until <= h'.now
  }

  lemma DoneTurn(g: Given, h: Have, log: seq<Turn>, pending: seq<Message>, fromFollowUp: bool, t: Turn, h': Have)
    requires TurnDone(g, h, log, pending, fromFollowUp, t, h')
    ensures t.steered == (if fromFollowUp then [] else pending)
    ensures t.followed == (if fromFollowUp then pending else [])
  {
  }

  lemma Regroup(a: seq<Message>, p: seq<Message>, q: seq<Message>, m: Message, r: seq<Message>)
    ensures a + p + q == a + (p + q)
    ensures a + p + (q + [m] + r) == a + (p + q + [m] + r)
  {
  }

  lemma NextLinked(log: seq<Turn>, t: Turn, hasMore: bool, pending: seq<Message>, fromFollowUp: bool)
    requires log != [] && Reason(log, hasMore, pending, fromFollowUp) && (hasMore || pending != [])
    requires t.prompts == []
    requires t.steered == (if fromFollowUp then [] else pending)
    requires t.followed == (if fromFollowUp then pending else [])
    ensures Linked(log[|log| - 1], t)
  {
  }

  lemma NextFollows(g: Given, h: Have, log: seq<Turn>, t: Turn, h': Have, hasMore: bool, pending: seq<Message>,
      fromFollowUp: bool)
    requires Agree(g, h, log) && Reason(log, hasMore, pending, fromFollowUp) && (hasMore || pending != [])
    requires TurnDone(g, h, log, pending, fromFollowUp, t, h')
    ensures Follows(g.env, g.start, g.tools, log, t)
  {
    InjectedIs(t, pending, fromFollowUp);
    Assoc(ContextAfter(g.start, log), t.prompts, pending);
    if log != [] {
      NextLinked(log, t, hasMore, pending, fromFollowUp);
    }
  }

  lemma LogSnoc(start: seq<Message>, tools: seq<Tool>, log: seq<Turn>, t: Turn)
    ensures Render(log + [t]) == Render(log) + TurnEvents(t)
    ensures Delivered(log + [t]) == Delivered(log) + TurnMessages(t)
    ensures Steered(log + [t]) == Steered(log) + t.steered
    ensures FollowedUp(log + [t]) == FollowedUp(log) + t.followed
    ensures ContextAfter(start, log + [t]) ==
      if t.replaced.Some? then t.replaced.value.messages else ContextAfter(start, log) + TurnMessages(t)
    ensures ToolsAfter(tools, log + [t]) == if t.replaced.Some? then t.replaced.value.tools else ToolsAfter(tools, log)
  {
    assert (log + [t])[..|log|] == log;
  }

  lemma LedgerSnoc(steered0: seq<Message>, followed0: seq<Message>, log: seq<Turn>, t: Turn)
    ensures steered0 + Steered(log) + t.steered == steered0 + Steered(log + [t])
    ensures followed0 + FollowedUp(log) + t.followed == followed0 + FollowedUp(log + [t])
    ensures t.steered == [] ==> steered0 + Steered(log) == steered0 + Steered(log + [t])
    ensures t.followed == [] ==> followed0 + FollowedUp(log) == followed0 + FollowedUp(log + [t])
  {
    LogSnoc([], [], log, t);
    Assoc(steered0, Steered(log), t.steered);
    Assoc(followed0, FollowedUp(log), t.followed);
  }

  /** One more turn keeps the agreement. */
  lemma NextAgree(g: Given, h: Have, log: seq<Turn>, t: Turn, h': Have, hasMore: bool, pending: seq<Message>,
      fromFollowUp: bool)
    requires Agree(g, h, log) && Reason(log, hasMore, pending, fromFollowUp) && (hasMore || pending != [])
    requires TurnDone(g, h, log, pending, fromFollowUp, t, h')
    ensures Agree(g, h', log + [t])
  {
    NextFollows(g, h, log, t, h', hasMore, pending, fromFollowUp);
    RunSnoc(g.env, g.start, g.tools, log, t);
    LogSnoc(g.start, g.tools, log, t);
    Assoc(g.base, Render(log), TurnEvents(t));
    InjectedIs(t, pending, fromFollowUp);
    Regroup(Delivered(log), t.prompts, pending, t.message, Results(t.batch.outs));
    Regroup(ContextAfter(g.start, log), t.prompts, pending, t.message, Results(t.batch.outs));
    NextValues(g, h, log, t, h', pending);
    NextMarks(g, h, log, t, h');
  }

  lemma NextMarks(g: Given, h: Have, log: seq<Turn>, t: Turn, h': Have)
    requires log != [] ==> log[0].prompts == g.prompts
    requires Dated(log, h.since, h.now) && t.prompts == Opened(g, log)
    requires h'.since == h.since == t.times.since && h.now <= h'.now && t.times.until <= h'.now
    ensures (log + [t])[0].prompts == g.prompts
    ensures Dated(log + [t], h'.since, h'.now)
  {
  }

  lemma NextValues(g: Given, h: Have, log: seq<Turn>, t: Turn, h': Have, pending: seq<Message>)
    requires h.newMessages == Delivered(log) + t.prompts && h.context == ContextAfter(g.start, log) + t.prompts
    requires Injected(t) == t.prompts + pending
    requires h'.newMessages == h.newMessages + (pending + [t.message] + Results(t.batch.outs))
    requires h'.context == (if t.replaced.Some? then t.replaced.value.messages
                            else h.context + (pending + [t.message] + Results(t.batch.outs)))
    ensures h'.newMessages == Delivered(log + [t]) + []
    ensures h'.context == ContextAfter(g.start, log + [t]) + []
  {
    LogSnoc(g.start, g.tools, log, t);
    Regroup(Delivered(log), t.prompts, pending, t.message, Results(t.batch.outs));
    Regroup(ContextAfter(g.start, log), t.prompts, pending, t.message, Results(t.batch.outs));
  }

  /** A turn with the hooks after it. */
  method HookedTurn(agent: Agent, context: MessageArray, tools: seq<Tool>, firstTurn: bool, pending: seq<Message>,
      newMessages: seq<Message>, ghost queue: PendingMessageQueue, ghost g: Given, ghost log: seq<Turn>)
    returns (message: AssistantMessage, outs: seq<Finalized>, context': MessageArray, tools': seq<Tool>,
      newMessages': seq<Message>, stop: bool, ghost t: Turn)
    requires agent.Valid() && agent.activeRun && context != agent.transcript && g.env == agent.env
    requires queue == agent.steering || queue == agent.followUp
    requires queue.inFlight == pending
    requires AtTurnStart(agent.trace, g.base + Render(log), firstTurn, Opened(g, log))
    modifies agent, agent.transcript, agent.steering, agent.followUp, context
    ensures agent.Valid() && agent.origin == old(agent.origin) && agent.Undisturbed()
    ensures context' != agent.transcript
    ensures TurnDone(g, old(Snapshot(agent, context, tools, newMessages)), log, pending, queue != agent.steering, t,
      Snapshot(agent, context', tools', newMessages'))
    ensures t.message == message && t.batch.outs == outs && t.stopped == stop
    ensures Failed(message) ==> !stop
    ensures if t.replaced.Some? then fresh(context') else context' == context
    ensures OnlyDelivered(agent, queue, pending)
  {
    hide ValidTurn, TurnEvents, HooksObeyed, Render, Agent.Valid;
    message, outs, newMessages', t := RunTurn(agent, context, tools, firstTurn, pending, newMessages,
      queue, g.base + Render(log), Opened(g, log));
    context', tools', stop, t := AfterTurn(agent, context, tools, Failed(message), t);
  }

  /** What is fixed while a loop runs: what the run was given, its context array, what both queues had
      delivered before, and what the first poll returns. */
  datatype Terms = Terms(given: Given, initial: MessageArray, steered: seq<Message>, followed: seq<Message>,
    first: seq<Message>)

  /** The body of the inner loop up to the steering poll, logged. */
  method LoggedTurn(agent: Agent, context: MessageArray, tools: seq<Tool>, firstTurn: bool, pending: seq<Message>,
      newMessages: seq<Message>, ghost terms: Terms, ghost log: seq<Turn>, ghost hasMore: bool,
      ghost fromFollowUp: bool)
    returns (message: AssistantMessage, outs: seq<Finalized>, context': MessageArray, tools': seq<Tool>,
      newMessages': seq<Message>, stop: bool, ghost t: Turn)
    requires agent.Valid() && agent.activeRun && context != agent.transcript && terms.given.env == agent.env
    requires Agree(terms.given, Snapshot(agent, context, tools, newMessages), log)
    requires Ledger(agent, terms.steered, terms.followed, log, pending, fromFollowUp)
    requires Reason(log, hasMore, pending, fromFollowUp) && (hasMore || pending != [])
    requires firstTurn == (log == [])
    modifies agent, agent.transcript, agent.steering, agent.followUp, context
    ensures agent.Valid() && agent.activeRun && context' != agent.transcript
    ensures Agree(terms.given, Snapshot(agent, context', tools', newMessages'), log + [t])
    ensures Ledger(agent, terms.steered, terms.followed, log + [t], [], false)
    ensures agent.origin == old(agent.origin) && agent.Undisturbed()
    ensures t.message == message && t.batch.outs == outs && t.stopped == stop
    ensures t.steered == if fromFollowUp then [] else pending
    ensures Failed(message) ==> !stop
    ensures t.replaced.None? ==> context' == context
    ensures t.replaced.Some? ==> fresh(context')
  {
    hide Run, TurnDone, Agent.Valid;
    ghost var queue := if fromFollowUp then agent.followUp else agent.steering;
    ghost var g, h := terms.given, Snapshot(agent, context, tools, newMessages);
    message, outs, context', tools', newMessages', stop, t := HookedTurn(agent, context, tools, firstTurn, pending,
      newMessages, queue, g, log);
    DoneTurn(g, h, log, pending, fromFollowUp, t, Snapshot(agent, context', tools', newMessages'));
    LedgerSnoc(terms.steered, terms.followed, log, t);
    NextAgree(g, h, log, t, Snapshot(agent, context', tools', newMessages'), hasMore, pending, fromFollowUp);
  }

  /** A complete or observed run: its turns explain its trace, its result and the movements of both queues. */
  ghost predicate Explains(g: Given, log: seq<Turn>, newMessages: seq<Message>, trace: seq<Event>, finished: bool) {
    && log != [] && Run(g.env, g.start, g.tools, log) && log[0].prompts == g.prompts
    && newMessages == Delivered(log)
    && trace == g.base + Render(log) + (if finished then [AgentEnd(newMessages)] else [])
    && (finished ==> MayEnd(log))
  }

  lemma AgreeExplains(g: Given, h: Have, log: seq<Turn>)
    requires Agree(g, h, log) && log != []
    ensures Explains(g, log, h.newMessages, h.trace, false)
    ensures MayEnd(log) ==> Explains(g, log, h.newMessages, h.trace + [AgentEnd(h.newMessages)], true)
    ensures NeverReplaced(log) ==> h.context == g.start + h.newMessages
  {
    assert h.newMessages == Delivered(log) + [] == Delivered(log);
    assert h.trace == g.base + Render(log) == g.base + Render(log) + [];
    if NeverReplaced(log) {
      ContextIsDelivered(g.start, log);
    }
  }

  /** Termination: a loop that had at least `limit` turns to use has finished if the continuing batches and
      the drained messages are too few to cause as many. */
  lemma FewCausesFinish(g: Given, log: seq<Turn>, newMessages: seq<Message>, trace: seq<Event>, finished: bool,
      limit: nat)
    requires Explains(g, log, newMessages, trace, finished) && (!finished ==> |log| == limit)
    requires 1 + Continuations(log) + |Steered(log)| + |FollowedUp(log)| < limit
    ensures finished
  {
    TurnBound(g.env, g.start, g.tools, log);
  }

  /** Pacing, the first poll, and the identity of the context array. */
  ghost predicate Facts(log: seq<Turn>, pending: seq<Message>, fromFollowUp: bool, one: bool, first: seq<Message>,
      sameArray: bool) {
    && (one ==> Paced(log) && (fromFollowUp || |pending| <= 1))
    && (if log == [] then pending == first else log[0].steered == first)
    && (NeverReplaced(log) ==> sameArray)
  }

  lemma FactsSnoc(log: seq<Turn>, t: Turn, pending: seq<Message>, fromFollowUp: bool, one: bool, one': bool,
      first: seq<Message>, sameArray: bool, sameArray': bool)
    requires Facts(log, pending, fromFollowUp, one, first, sameArray) && (one' ==> one)
    requires t.steered == (if fromFollowUp then [] else pending)
    requires log == [] ==> !fromFollowUp
    requires t.replaced.None? && sameArray ==> sameArray'
    ensures Facts(log + [t], [], false, one', first, sameArray')
  {
    var all := log + [t];
    assert all[|log|] == t && forall k :: 0 <= k < |log| ==> all[k] == log[k];
    if NeverReplaced(all) {
      forall k | 0 <= k < |log| ensures log[k].replaced.None? {
        assert all[k] == log[k];
      }
    }
  }

  /** What has held since the start of the run held earlier in it. */
  twostate lemma SoFarOnly(agent: Agent)
    requires agent.origin == old(agent.origin) && old(agent.clock) <= agent.clock
    ensures agent.OneAtATimeSoFar() ==> old(agent.OneAtATimeSoFar())
  {
  }

  /** What both loops keep. */
  ghost predicate LoopInv(agent: Agent, context: MessageArray, tools: seq<Tool>, newMessages: seq<Message>,
    pending: seq<Message>, terms: Terms, log: seq<Turn>, fromFollowUp: bool)
    reads agent, agent.transcript, agent.steering, agent.followUp, context
  {
    && agent.Valid() && agent.activeRun && context != agent.transcript && terms.given.env == agent.env
    && Agree(terms.given, Snapshot(agent, context, tools, newMessages), log)
    && Ledger(agent, terms.steered, terms.followed, log, pending, fromFollowUp)
    && Facts(log, pending, fromFollowUp, agent.OneAtATimeSoFar(), terms.first, context == terms.initial)
    && !agent.skipInitialSteeringPoll
  }

  /** What the first steering poll of a loop is going to return. */
  ghost function FirstSteering(agent: Agent): seq<Message>
    reads agent, agent.steering
  {
    if agent.skipInitialSteeringPoll then [] else Taken(agent.steering.mode, agent.steering.messages)
  }

  /** The run ended because its last turn failed or the stop hook asked for it. */
  ghost predicate StoppedEarly(log: seq<Turn>) {
    log != [] && (Failed(log[|log| - 1].message) || log[|log| - 1].stopped)
  }

  /** The queue was found empty `n` awaits ago, during this run: it holds just what other code left since. */
  ghost predicate Emptied(agent: Agent, side: Side, queue: PendingMessageQueue, n: nat)
    reads agent`clock, agent`origin, queue
  {
    && agent.origin.clock + n <= agent.clock
    && queue.messages == agent.env.Left(side, agent.clock - n, agent.clock)
  }

  /** No message is left behind: unless it was stopped early, a run ends three awaits after a steering poll
      and two after a follow-up poll that found the queues empty. */
  ghost predicate NothingLeft(agent: Agent, log: seq<Turn>)
    reads agent`clock, agent`origin, agent.steering, agent.followUp
  {
    StoppedEarly(log) || (Emptied(agent, Steering, agent.steering, 3) && Emptied(agent, FollowUps, agent.followUp, 2))
  }

  datatype Exit = OutOfTurns | RunOver | OutOfWork

  /** The steering poll after a turn that does not end the run. */
  method PollUnless(agent: Agent, ended: bool) returns (drained: seq<Message>)
    requires agent.Valid() && agent.activeRun && agent.steering.inFlight == [] && !agent.skipInitialSteeringPoll
    modifies agent, agent.transcript, agent.steering, agent.followUp
    ensures agent.Valid() && agent.activeRun && agent.trace == old(agent.trace) && agent.origin == old(agent.origin)
    ensures agent.isStreaming == old(agent.isStreaming) && old(agent.clock) <= agent.clock
    ensures agent.followUp.LedgerKept() && agent.steering.delivered == old(agent.steering.delivered)
    ensures agent.steering.inFlight == drained && !agent.skipInitialSteeringPoll
    ensures if ended then drained == [] else agent.Polled(Steering, agent.steering, drained)
    ensures !ended && drained == [] ==> Emptied(agent, Steering, agent.steering, 1)
    ensures agent.OneAtATimeSoFar() ==> |drained| <= 1
  {
    drained := [];
    if !ended {
      drained := agent.GetSteeringMessages();
      assert [] + drained == drained;
      LeftAfterPoll(agent.env, Steering, old(agent.steering.Now()), old(agent.clock));
    }
  }

  lemma LeftAfterPoll(env: Env, side: Side, w: Waiting, t: nat)
    ensures Taken(w.mode, w.messages) == [] ==>
      env.After(side, Waiting(w.messages[|Taken(w.mode, w.messages)|..], w.mode), t, t + 1).messages ==
      env.Left(side, t, t + 1)
  {
    if Taken(w.mode, w.messages) == [] {
      ModeBlind(env, side, Waiting([], w.mode), Waiting([], All), t, t + 1);
    }
  }

  lemma LastTurn(log: seq<Turn>, t: Turn, hasMore: bool, pending: seq<Message>)
    requires hasMore == Continues(t)
    ensures Failed(t.message) || t.stopped ==> MayEnd(log + [t])
    ensures !Failed(t.message) && !t.stopped ==> Reason(log + [t], hasMore, pending, false)
  {
  }

  lemma LaterAgree(g: Given, h: Have, h': Have, log: seq<Turn>)
    requires Agree(g, h, log)
    requires h'.trace == h.trace && h'.context == h.context && h'.tools == h.tools && h'.newMessages == h.newMessages
    requires h'.since == h.since && h.now <= h'.now
    ensures Agree(g, h', log)
  {
  }

  /** The steering poll between two turns. */
  method NextSteering(agent: Agent, ended: bool, ghost context: MessageArray, ghost tools: seq<Tool>,
      ghost newMessages: seq<Message>, ghost terms: Terms, ghost log: seq<Turn>)
    returns (drained: seq<Message>)
    requires LoopInv(agent, context, tools, newMessages, [], terms, log, false) && log != []
    modifies agent, agent.transcript, agent.steering, agent.followUp
    ensures LoopInv(agent, context, tools, newMessages, drained, terms, log, false)
    ensures agent.origin == old(agent.origin) && agent.isStreaming == old(agent.isStreaming)
    ensures ended ==> drained == []
    ensures !ended && drained == [] ==> Emptied(agent, Steering, agent.steering, 1)
  {
    hide Agree, Agent.Valid, Agent.Polled, Emptied, Agent.OneAtATimeSoFar;
    ghost var h := Snapshot(agent, context, tools, newMessages);
    drained := PollUnless(agent, ended);
    LaterAgree(terms.given, h, Snapshot(agent, context, tools, newMessages), log);
    SoFarOnly(agent);
  }

  /** One round of the inner loop: a turn and, unless the run ends, the next steering poll. */
  method Round(agent: Agent, context: MessageArray, tools: seq<Tool>, newMessages: seq<Message>, pending: seq<Message>,
      firstTurn: bool, ghost hasMore: bool, ghost terms: Terms, ghost log: seq<Turn>, ghost fromFollowUp: bool)
    returns (context': MessageArray, tools': seq<Tool>, newMessages': seq<Message>, pending': seq<Message>,
      hasMore': bool, ended: bool, ghost t: Turn)
    requires LoopInv(agent, context, tools, newMessages, pending, terms, log, fromFollowUp)
    requires Reason(log, hasMore, pending, fromFollowUp) && (hasMore || pending != []) && firstTurn == (log == [])
    modifies agent, agent.transcript, agent.steering, agent.followUp, context
    ensures LoopInv(agent, context', tools', newMessages', pending', terms, log + [t], false)
    ensures if ended then MayEnd(log + [t]) && StoppedEarly(log + [t]) && pending' == []
            else Reason(log + [t], hasMore', pending', false)
    ensures !ended && pending' == [] ==> Emptied(agent, Steering, agent.steering, 1)
    ensures agent.origin == old(agent.origin) && agent.isStreaming == old(agent.isStreaming)
    ensures context' == context || fresh(context')
  {
    hide Agree, ValidTurn, Run, Agent.Valid, Agent.Polled, Emptied;
    var message, outs, stop;
    message, outs, context', tools', newMessages', stop, t := LoggedTurn(agent, context, tools, firstTurn, pending,
      newMessages, terms, log, hasMore, fromFollowUp);
    hasMore' := |outs| > 0 && !ShouldTerminate(outs);
    ended := Failed(message) || stop;
    SoFarOnly(agent);
    FactsSnoc(log, t, pending, fromFollowUp, old(agent.OneAtATimeSoFar()), agent.OneAtATimeSoFar(), terms.first,
      context == terms.initial, context' == terms.initial);
    pending' := NextSteering(agent, ended, context', tools', newMessages', terms, log + [t]);
    LastTurn(log, t, hasMore', pending');
  }

  /** The inner loop: turns while there are tool calls to continue with or messages to inject. */
  method InnerLoop(agent: Agent, context0: MessageArray, tools0: seq<Tool>, newMessages0: seq<Message>,
      pending0: seq<Message>, turns0: nat, limit: nat, ghost terms: Terms, ghost log0: seq<Turn>,
      ghost fromFollowUp0: bool)
    returns (context: MessageArray, tools: seq<Tool>, newMessages: seq<Message>, pendingMessages: seq<Message>,
      turns: nat, exit: Exit, ghost log: seq<Turn>, ghost fromFollowUp: bool)
    requires LoopInv(agent, context0, tools0, newMessages0, pending0, terms, log0, fromFollowUp0)
    requires Reason(log0, true, pending0, fromFollowUp0) && turns0 == |log0| <= limit
    modifies agent, agent.transcript, agent.steering, agent.followUp, context0
    ensures LoopInv(agent, context, tools, newMessages, pendingMessages, terms, log, fromFollowUp)
    ensures agent.origin == old(agent.origin) && agent.isStreaming == old(agent.isStreaming)
    ensures context == context0 || fresh(context)
    ensures turns == |log| <= limit
    ensures match exit
      case OutOfTurns => |log| == limit
      case RunOver => MayEnd(log) && StoppedEarly(log) && pendingMessages == [] && !fromFollowUp
      case OutOfWork =>
        && |log| > |log0| && Reason(log, false, [], false) && pendingMessages == [] && !fromFollowUp
        && Emptied(agent, Steering, agent.steering, 1)
  {
    hide LoopInv, Emptied;
    context, tools, newMessages, pendingMessages := context0, tools0, newMessages0, pending0;
    turns, log, fromFollowUp := turns0, log0, fromFollowUp0;
    var hasMoreToolCalls := true;
    while hasMoreToolCalls || |pendingMessages| > 0
      invariant LoopInv(agent, context, tools, newMessages, pendingMessages, terms, log, fromFollowUp)
      invariant Reason(log, hasMoreToolCalls, pendingMessages, fromFollowUp)
      invariant agent.origin == old(agent.origin) && agent.isStreaming == old(agent.isStreaming)
      invariant context == context0 || fresh(context)
      invariant turns == |log| <= limit
      invariant |log| > |log0| || (log == log0 && hasMoreToolCalls)
      invariant |log| > |log0| && pendingMessages == [] ==> Emptied(agent, Steering, agent.steering, 1)
      decreases limit - turns
    {
      if turns == limit {
        exit := OutOfTurns;
        return;
      }
      var ended; ghost var t;
      context, tools, newMessages, pendingMessages, hasMoreToolCalls, ended, t := Round(agent, context, tools,
        newMessages, pendingMessages, turns == 0, hasMoreToolCalls, terms, log, fromFollowUp);
      log, fromFollowUp := log + [t], false;
      turns := turns + 1;
      if ended {
        exit := RunOver;
        return;
      }
    }
    exit := OutOfWork;
  }

  lemma AgreeAtStart(g: Given, h: Have)
    requires h.trace == g.base + ([TurnStart] + Pairs(g.prompts)) && h.context == g.start + g.prompts
    requires h.tools == g.tools && h.newMessages == g.prompts
    ensures Agree(g, h, [])
  {
    assert Render([]) == [] && g.base + [] == g.base && [] + g.prompts == g.prompts;
  }

  /** The steering poll before the first turn. */
  method FirstPoll(agent: Agent, ghost terms: Terms) returns (drained: seq<Message>)
    requires agent.Valid() && agent.activeRun && terms.initial != agent.transcript
    requires terms.given.env == agent.env
    requires terms.initial.items == terms.given.start + terms.given.prompts
    requires agent.trace == terms.given.base + ([TurnStart] + Pairs(terms.given.prompts))
    requires agent.steering.inFlight == agent.followUp.inFlight == []
    requires terms.steered == agent.steering.delivered && terms.followed == agent.followUp.delivered
    requires terms.first == FirstSteering(agent)
    modifies agent, agent.transcript, agent.steering, agent.followUp
    ensures LoopInv(agent, terms.initial, terms.given.tools, terms.given.prompts, drained, terms, [], false)
    ensures agent.origin == old(agent.origin) && agent.isStreaming == old(agent.isStreaming)
  {
    hide Agree, Agent.Valid;
    drained := agent.GetSteeringMessages();
    AgreeAtStart(terms.given, Snapshot(agent, terms.initial, terms.given.tools, terms.given.prompts));
    assert [] + drained == drained;
    assert terms.steered + [] == terms.steered && terms.followed + [] == terms.followed;
  }

  /** A follow-up poll right after an empty steering poll. If it too takes nothing, both queues hold just
      what other code left in them since. */
  method PollFollowUps(agent: Agent) returns (drained: seq<Message>)
    requires agent.Valid() && agent.activeRun && Emptied(agent, Steering, agent.steering, 1)
    modifies agent, agent.transcript, agent.steering, agent.followUp
    ensures agent.Valid() && agent.activeRun && agent.trace == old(agent.trace)
    ensures agent.origin == old(agent.origin) && agent.isStreaming == old(agent.isStreaming)
    ensures agent.skipInitialSteeringPoll == old(agent.skipInitialSteeringPoll)
    ensures old(agent.clock) <= agent.clock
    ensures agent.steering.LedgerKept() && agent.followUp.delivered == old(agent.followUp.delivered)
    ensures agent.followUp.inFlight == old(agent.followUp.inFlight) + drained
    ensures agent.Polled(FollowUps, agent.followUp, drained)
    ensures drained == [] ==>
      Emptied(agent, Steering, agent.steering, 2) && Emptied(agent, FollowUps, agent.followUp, 1)
  {
    hide Agent.Valid, Env.After;
    drained := agent.GetFollowUpMessages();
    LeftAfterPoll(agent.env, FollowUps, old(agent.followUp.Now()), old(agent.clock));
    LeftLonger(agent.env, Steering, old(agent.steering.Now()), old(agent.clock) - 1, old(agent.clock), agent.clock);
  }

  /** The follow-up poll, where the run would otherwise stop. */
  method FollowUpPoll(agent: Agent, ghost context: MessageArray, ghost tools: seq<Tool>,
      ghost newMessages: seq<Message>, ghost terms: Terms, ghost log: seq<Turn>)
    returns (drained: seq<Message>, ghost fromFollowUp: bool)
    requires LoopInv(agent, context, tools, newMessages, [], terms, log, false)
    requires log != [] && Reason(log, false, [], false) && Emptied(agent, Steering, agent.steering, 1)
    modifies agent, agent.transcript, agent.steering, agent.followUp
    ensures LoopInv(agent, context, tools, newMessages, drained, terms, log, fromFollowUp)
    ensures agent.origin == old(agent.origin) && agent.isStreaming == old(agent.isStreaming)
    ensures fromFollowUp == (drained != [])
    ensures agent.Polled(FollowUps, agent.followUp, drained)
    ensures if drained != [] then Reason(log, true, drained, true)
            else Emptied(agent, Steering, agent.steering, 2) && Emptied(agent, FollowUps, agent.followUp, 1)
  {
    ghost var h := Snapshot(agent, context, tools, newMessages);
    hide Agree, Agent.Valid, Env.After, Agent.Polled, Emptied;
    drained := PollFollowUps(agent);
    fromFollowUp := drained != [];
    assert [] + drained == drained;
    LaterAgree(terms.given, h, Snapshot(agent, context, tools, newMessages), log);
  }

  /** What the loop invariant says at the end of a run. */
  lemma Conclude(agent: Agent, context: MessageArray, tools: seq<Tool>, newMessages: seq<Message>,
      pending: seq<Message>, terms: Terms, log: seq<Turn>, fromFollowUp: bool)
    requires LoopInv(agent, context, tools, newMessages, pending, terms, log, fromFollowUp)
    requires log != []
    ensures agent.Valid() && agent.activeRun && terms.given.env == agent.env && context != agent.transcript
    ensures Explains(terms.given, log, newMessages, agent.trace, false)
    ensures MayEnd(log) ==> Explains(terms.given, log, newMessages, agent.trace + [AgentEnd(newMessages)], true)
    ensures Ledger(agent, terms.steered, terms.followed, log, pending, fromFollowUp)
    ensures Dated(log, agent.origin.clock, agent.clock)
    ensures log[0].steered == terms.first
    ensures agent.OneAtATimeSoFar() ==> Paced(log)
    ensures NeverReplaced(log) ==>
      context == terms.initial && terms.initial.items == terms.given.start + newMessages
  {
    AgreeExplains(terms.given, Snapshot(agent, context, tools, newMessages), log);
  }

  /** Ends a run with its last event. */
  method Finish(agent: Agent, ghost context: MessageArray, ghost tools: seq<Tool>, newMessages: seq<Message>,
      ghost terms: Terms, ghost log: seq<Turn>)
    requires LoopInv(agent, context, tools, newMessages, [], terms, log, false)
    requires MayEnd(log)
    requires StoppedEarly(log) ||
             (Emptied(agent, Steering, agent.steering, 2) && Emptied(agent, FollowUps, agent.followUp, 1))
    modifies agent, agent.transcript, agent.steering, agent.followUp
    ensures NothingLeft(agent, log)
    ensures agent.Valid() && agent.activeRun
    ensures agent.origin == old(agent.origin) && agent.isStreaming == old(agent.isStreaming)
    ensures Explains(terms.given, log, newMessages, agent.trace, true)
    ensures Ledger(agent, terms.steered, terms.followed, log, [], false)
    ensures Dated(log, agent.origin.clock, agent.clock)
    ensures log[0].steered == terms.first
    ensures agent.OneAtATimeSoFar() ==> Paced(log)
    ensures NeverReplaced(log) ==> terms.initial.items == terms.given.start + newMessages
  {
    hide Explains, Run, Agree, Paced, StoppedEarly, Agent.Valid, Env.After, NeverReplaced;
    Conclude(agent, context, tools, newMessages, [], terms, log, false);
    agent.ProcessEvents(AgentEnd(newMessages));
    if !StoppedEarly(log) {
      LeftLonger(agent.env, Steering, old(agent.steering.Now()), old(agent.clock) - 2, old(agent.clock), agent.clock);
      LeftLonger(agent.env, FollowUps, old(agent.followUp.Now()), old(agent.clock) - 1, old(agent.clock), agent.clock);
    }
  }

  /** The loop, observed for at most `limit` turns. The whole run is observed unless `finished` is false. */
  method RunLoop(agent: Agent, initial: MessageArray, tools0: seq<Tool>, prompts: seq<Message>, limit: nat,
      ghost base: seq<Event>, ghost start: seq<Message>)
    returns (newMessages: seq<Message>, finished: bool, ghost log: seq<Turn>, ghost inFlight: seq<Message>,
      ghost fromFollowUp: bool)
    requires agent.Valid() && agent.activeRun && initial != agent.transcript && limit > 0
    requires initial.items == start + prompts
    requires agent.trace == base + ([TurnStart] + Pairs(prompts))
    requires agent.steering.inFlight == agent.followUp.inFlight == []
    modifies agent, agent.transcript, agent.steering, agent.followUp, initial
    ensures agent.Valid() && agent.activeRun && agent.origin == old(agent.origin)
    ensures agent.isStreaming == old(agent.isStreaming)
    ensures Explains(Given(agent.env, base, start, tools0, prompts), log, newMessages, agent.trace, finished)
    ensures |log| <= limit && (!finished ==> |log| == limit)
    ensures Ledger(agent, old(agent.steering.delivered), old(agent.followUp.delivered), log, inFlight, fromFollowUp)
    ensures finished ==> inFlight == [] && NothingLeft(agent, log)
    ensures Dated(log, agent.origin.clock, agent.clock)
    ensures log != [] && log[0].steered == old(FirstSteering(agent))
    ensures agent.OneAtATimeSoFar() ==> Paced(log)
    ensures NeverReplaced(log) ==> initial.items == start + newMessages
  {
    hide LoopInv, Explains, Ledger, Paced, NeverReplaced, NothingLeft, Emptied;
    ghost var terms := Terms(Given(agent.env, base, start, tools0, prompts), initial, agent.steering.delivered,
      agent.followUp.delivered, FirstSteering(agent));
    var context, tools, turns := initial, tools0, 0;
    newMessages, log, fromFollowUp := prompts, [], false;
    var pendingMessages := FirstPoll(agent, terms);
    while true
      invariant LoopInv(agent, context, tools, newMessages, pendingMessages, terms, log, fromFollowUp)
      invariant Reason(log, true, pendingMessages, fromFollowUp)
      invariant agent.origin == old(agent.origin) && agent.isStreaming == old(agent.isStreaming)
      invariant context == initial || fresh(context)
      invariant turns == |log| <= limit
      decreases limit - turns
    {
      var exit;
      context, tools, newMessages, pendingMessages, turns, exit, log, fromFollowUp := InnerLoop(agent, context, tools,
        newMessages, pendingMessages, turns, limit, terms, log, fromFollowUp);
      if exit == OutOfTurns {
        finished, inFlight := false, pendingMessages;
        Conclude(agent, context, tools, newMessages, pendingMessages, terms, log, fromFollowUp);
        return;
      }
      if exit == RunOver {
        break;
      }
      pendingMessages, fromFollowUp := FollowUpPoll(agent, context, tools, newMessages, terms, log);
      if |pendingMessages| == 0 {
        break;
      }
    }
    Finish(agent, context, tools, newMessages, terms, log);
    finished, inFlight, fromFollowUp := true, [], false;
  }

  /** Emits one message and records its delivery if it was drained from a queue. */
  method EmitFrom(agent: Agent, m: Message, ghost source: PendingMessageQueue?)
    requires agent.Valid() && agent.activeRun
    requires source == null || source == agent.steering || source == agent.followUp
    requires source != null ==> source.inFlight != [] && source.inFlight[0] == m
    modifies agent, agent.transcript, agent.steering, agent.followUp
    ensures agent.Logged([MessageStart(m), MessageEnd(m)]) && agent.Elapsed(2)
    ensures source != null ==> source.inFlight == old(source.inFlight)[1..]
    ensures source != null ==> source.delivered == old(source.delivered) + [m]
    ensures source != agent.steering ==> agent.steering.LedgerKept()
    ensures source != agent.followUp ==> agent.followUp.LedgerKept()
  {
    agent.EmitMessage(m);
    if source != null {
      source.Deliver();
    }
  }

  lemma NoPairs()
    ensures Pairs([]) == []
  {
  }

  lemma Later(env: Env, steering: Waiting, followUps: Waiting, t: nat, now: nat, n: nat)
    requires t <= now
    ensures env.After(Steering, env.After(Steering, steering, t, now), now, now + n) ==
            env.After(Steering, steering, t, now + n)
    ensures env.After(FollowUps, env.After(FollowUps, followUps, t, now), now, now + n) ==
            env.After(FollowUps, followUps, t, now + n)
  {
    hide *;
    AfterSplit(env, Steering, steering, t, now, now + n);
    AfterSplit(env, FollowUps, followUps, t, now, now + n);
  }

  /** Emits the prompts of a run. If they were drained from a queue, they are thereby delivered. */
  method EmitPrompts(agent: Agent, prompts: seq<Message>, ghost source: PendingMessageQueue?)
    requires agent.Valid() && agent.activeRun
    requires source == null || source == agent.steering || source == agent.followUp
    requires source != null ==> source.inFlight == prompts
    modifies agent, agent.transcript, agent.steering, agent.followUp
    ensures agent.Logged(Pairs(prompts)) && agent.Elapsed(2 * |prompts|)
    ensures source != null ==> source.inFlight == [] && source.delivered == old(source.delivered) + prompts
    ensures source != agent.steering ==> agent.steering.LedgerKept()
    ensures source != agent.followUp ==> agent.followUp.LedgerKept()
  {
    hide Agent.Valid, Env.After, Pairs;
    NoPairs();
    NoTime(agent.env, Steering, agent.steering.Now(), agent.clock);
    NoTime(agent.env, FollowUps, agent.followUp.Now(), agent.clock);
    for i := 0 to |prompts|
      invariant agent.Logged(Pairs(prompts[..i])) && agent.Elapsed(2 * i)
      invariant source != null ==>
        source.inFlight == prompts[i..] && source.delivered == old(source.delivered) + prompts[..i]
      invariant source != agent.steering ==> agent.steering.LedgerKept()
      invariant source != agent.followUp ==> agent.followUp.LedgerKept()
    {
      assert prompts[..i + 1] == prompts[..i] + [prompts[i]];
      PairsSnoc(prompts[..i], prompts[i]);
      Assoc(old(agent.trace), Pairs(prompts[..i]), [MessageStart(prompts[i]), MessageEnd(prompts[i])]);
      if source != null {
        Assoc(old(source.delivered), prompts[..i], [prompts[i]]);
      }
      Later(agent.env, old(agent.steering.Now()), old(agent.followUp.Now()), old(agent.clock), agent.clock, 2);
      EmitFrom(agent, prompts[i], source);
    }
    assert prompts[..|prompts|] == prompts;
  }

  /** Starts a run: `agent_start`, the first `turn_start` and the prompts. */
  method Open(agent: Agent, prompts: seq<Message>, ghost source: PendingMessageQueue?)
    requires agent.Valid() && agent.activeRun
    requires source == null || source == agent.steering || source == agent.followUp
    requires source != null ==> source.inFlight == prompts
    modifies agent, agent.transcript, agent.steering, agent.followUp
    ensures agent.Valid() && agent.origin == old(agent.origin) && agent.Undisturbed()
    ensures agent.trace == old(agent.trace) + [AgentStart] + ([TurnStart] + Pairs(prompts))
    ensures agent.Elapsed(2 + 2 * |prompts|)
    ensures source != null ==> source.inFlight == [] && source.delivered == old(source.delivered) + prompts
    ensures source != agent.steering ==> agent.steering.LedgerKept()
    ensures source != agent.followUp ==> agent.followUp.LedgerKept()
  {
    hide Agent.Valid, Env.After, Pairs;
    agent.ProcessEvents(AgentStart);
    Later(agent.env, old(agent.steering.Now()), old(agent.followUp.Now()), old(agent.clock), agent.clock, 1);
    agent.ProcessEvents(TurnStart);
    Later(agent.env, old(agent.steering.Now()), old(agent.followUp.Now()), old(agent.clock), agent.clock,
      2 * |prompts|);
    EmitPrompts(agent, prompts, source);
    Assoc(old(agent.trace) + [AgentStart], [TurnStart], Pairs(prompts));
  }

  /** The queue ledgers after the prompts of a run were delivered. */
  function WithPrompts(delivered: seq<Message>, mine: bool, prompts: seq<Message>): seq<Message> {
    if mine then delivered + prompts else delivered
  }

  /** Starts a loop with new prompts. The given context is copied, never changed. */
  method RunAgentLoop(agent: Agent, prompts: seq<Message>, context: MessageArray, tools: seq<Tool>, limit: nat,
      ghost source: PendingMessageQueue?)
    returns (newMessages: seq<Message>, finished: bool, ghost log: seq<Turn>, ghost inFlight: seq<Message>,
        ghost fromFollowUp: bool)
    requires agent.Valid() && agent.activeRun && context != agent.transcript && limit > 0
    requires source == null || source == agent.steering || source == agent.followUp
    requires agent.steering.inFlight == (if source == agent.steering then prompts else [])
    requires agent.followUp.inFlight == (if source == agent.followUp then prompts else [])
    modifies agent, agent.transcript, agent.steering, agent.followUp
    ensures agent.Valid() && agent.activeRun && agent.origin == old(agent.origin)
    ensures agent.isStreaming == old(agent.isStreaming)
    ensures Explains(Given(agent.env, old(agent.trace) + [AgentStart], context.items, tools, prompts),
      log, newMessages, agent.trace, finished)
    ensures |log| <= limit && (!finished ==> |log| == limit)
    ensures Ledger(agent, WithPrompts(old(agent.steering.delivered), source == agent.steering, prompts),
      WithPrompts(old(agent.followUp.delivered), source == agent.followUp, prompts), log, inFlight, fromFollowUp)
    ensures finished ==> inFlight == [] && NothingLeft(agent, log)
    ensures Dated(log, agent.origin.clock, agent.clock)
    ensures log != [] && log[0].steered ==
      if old(agent.skipInitialSteeringPoll) then []
      else TakenFrom(agent.env.After(Steering, old(agent.steering.Now()), old(agent.clock),
                                     old(agent.clock) + 2 + 2 * |prompts|))
    ensures agent.OneAtATimeSoFar() ==> Paced(log)
  {
    hide Explains, Ledger, Paced, NeverReplaced, NothingLeft, Agent.Valid, Env.After;
    ghost var start, base := context.items, agent.trace + [AgentStart];
    var currentContext := new MessageArray(context.items + prompts);
    Open(agent, prompts, source);
    newMessages, finished, log, inFlight, fromFollowUp := RunLoop(agent, currentContext, tools, prompts, limit, base,
        start);
  }

  datatype Refusal = AlreadyProcessing | NoMessages | AssistantAtEnd

  /** Continues a loop without new prompts. The given context array is shared: the run's messages are
      appended to the caller's own array. */
  method RunAgentLoopContinue(agent: Agent, context: MessageArray, tools: seq<Tool>, limit: nat)
    returns (refused: Option<Refusal>, newMessages: seq<Message>, finished: bool, ghost log: seq<Turn>,
      ghost inFlight: seq<Message>, ghost fromFollowUp: bool)
    requires agent.Valid() && agent.activeRun && context != agent.transcript && limit > 0
    requires agent.steering.inFlight == agent.followUp.inFlight == []
    modifies agent, agent.transcript, agent.steering, agent.followUp, context
    ensures agent.Valid() && agent.activeRun && agent.origin == old(agent.origin)
    ensures agent.isStreaming == old(agent.isStreaming)
    ensures refused ==
      if old(context.items) == [] then Some(NoMessages)
      else if old(context.items)[|old(context.items)| - 1].Assistant? then Some(AssistantAtEnd)
      else None
    ensures refused.Some? ==> newMessages == [] && agent.trace == old(agent.trace)
    ensures refused.Some? ==> context.items == old(context.items)
    ensures refused.Some? ==> agent.steering.messages == old(agent.steering.messages)
    ensures refused.Some? ==> agent.followUp.messages == old(agent.followUp.messages)
    ensures refused.None? ==>
      && Explains(Given(agent.env, old(agent.trace) + [AgentStart], old(context.items), tools, []),
           log, newMessages, agent.trace, finished)
      && |log| <= limit && (!finished ==> |log| == limit)
      && Ledger(agent, old(agent.steering.delivered), old(agent.followUp.delivered), log, inFlight, fromFollowUp)
      && (finished ==> inFlight == [] && NothingLeft(agent, log))
      && log != [] && log[0].steered ==
         (if old(agent.skipInitialSteeringPoll) then []
          else TakenFrom(agent.env.After(Steering, old(agent.steering.Now()), old(agent.clock), old(agent.clock) + 2)))
      && Dated(log, agent.origin.clock, agent.clock)
      && (agent.OneAtATimeSoFar() ==> Paced(log))
      && (NeverReplaced(log) ==> context.items == old(context.items) + newMessages)
  {
    hide Explains, Ledger, Paced, NeverReplaced, NothingLeft, Agent.Valid, Env.After;
    newMessages, finished, log, inFlight, fromFollowUp := [], false, [], [], false;
    if |context.items| == 0 {
      return Some(NoMessages), [], false, [], [], false;
    }
    if context.items[|context.items| - 1].Assistant? {
      return Some(AssistantAtEnd), [], false, [], [], false;
    }
    refused := None;
    ghost var start, base := context.items, agent.trace + [AgentStart];
    Open(agent, [], null);
    assert start + [] == start;
    newMessages, finished, log, inFlight, fromFollowUp := RunLoop(agent, context, tools, [], limit, base, start);
  }
}
