/** A run as a sequence of turns, and what every such run satisfies. */
module RunLog {
  import opened Messages
  import opened Oracles
  import opened Events
  import opened Streaming
  import opened ToolBatch
  import opened ToolAnswers
  import opened ToolLifecycle
  import opened CallIdentity

  /** When a batch ran: the moment the run began, the moments at which the calls of the batch started, and
      the moment of the last look at the abort signal. */
  datatype Times = Times(since: nat, starts: seq<nat>, until: nat)

  /** The preflight of a call that started at `start` ended by `until` with a look at the abort signal. */
  predicate Timely(env: Env, w: Moments, since: nat, start: nat, until: nat) {
    && w.prepared == start + 1
    && w.prepared <= w.decided <= until
    && (w.aborted <==> env.Aborts(since, w.decided))
  }

  /** The answer is the one the call gets when it is prepared right after its start, and executed and settled
      at some moments. */
  ghost predicate AnswersCall(env: Env, tools: seq<Tool>, call: ToolCall, answer: Answer, since: nat, start: nat,
      until: nat)
  {
    exists w :: AnswerAt(env, tools, call, w) == answer && Timely(env, w, since, start, until)
  }

  /** The answered calls are a prefix of the calls, nonempty if there are any. No call but the first starts
      once the run is aborted, and the batch is cut short only then. */
  ghost predicate Answers(env: Env, tools: seq<Tool>, calls: seq<ToolCall>, answers: seq<Answer>, times: Times) {
    && |answers| == |times.starts| <= |calls|
    && (calls != [] ==> answers != [])
    && (|answers| < |calls| ==> env.Aborts(times.since, times.until))
    && (forall i :: 0 < i < |answers| ==> !env.Aborts(times.since, times.starts[i]))
    && forall i :: 0 <= i < |answers| ==>
         AnswersCall(env, tools, calls[i], answers[i], times.since, times.starts[i], times.until)
  }

  function AnswersOf(outs: seq<Finalized>, updates: seq<seq<string>>, through: seq<bool>): (answers: seq<Answer>)
    requires |outs| == |updates| == |through|
    ensures |answers| == |outs|
    ensures forall i :: 0 <= i < |outs| ==> answers[i] == Answer(outs[i], updates[i], through[i])
  {
    seq(|outs|, i requires 0 <= i < |outs| => Answer(outs[i], updates[i], through[i]))
  }

  /** Without aborts, and with tools and hooks that answer as functions of the call, there is only one way
      to answer some calls: sequential execution and every interleaving of parallel execution give the same
      results and partial results in the same order, let the same calls through, and so have the same
      result messages and the same decision to stop. */
  lemma ModesAgree(env: Env, tools: seq<Tool>, calls: seq<ToolCall>, b: RawBatch, s: Times, c: RawBatch, t: Times)
    requires env.Stable() && IsBatch(b) && IsBatch(c)
    requires Answers(env, tools, calls, AnswersOf(b.outs, b.updates, b.through), s)
    requires Answers(env, tools, calls, AnswersOf(c.outs, c.updates, c.through), t)
    requires !env.Aborts(s.since, s.until) && !env.Aborts(t.since, t.until)
    ensures AnswersOf(b.outs, b.updates, b.through) == AnswersTo(env, tools, calls)
    ensures b.outs == c.outs && b.updates == c.updates && b.through == c.through
    ensures Results(b.outs) == Results(c.outs) && ShouldTerminate(b.outs) == ShouldTerminate(c.outs)
  {
    OnlyAnswers(env, tools, calls, AnswersOf(b.outs, b.updates, b.through), s);
    OnlyAnswers(env, tools, calls, AnswersOf(c.outs, c.updates, c.through), t);
    hide AnswersTo, Answers;
    forall i | 0 <= i < |b.outs|
      ensures b.outs[i] == c.outs[i] && b.updates[i] == c.updates[i] && b.through[i] == c.through[i]
    {
      assert AnswersOf(b.outs, b.updates, b.through)[i] == AnswersOf(c.outs, c.updates, c.through)[i];
    }
  }

  lemma OnlyAnswers(env: Env, tools: seq<Tool>, calls: seq<ToolCall>, answers: seq<Answer>, times: Times)
    requires env.Stable() && Answers(env, tools, calls, answers, times) && !env.Aborts(times.since, times.until)
    ensures answers == AnswersTo(env, tools, calls)
  {
    hide Env.Stable, Env.Aborts;
    forall i | 0 <= i < |calls| ensures answers[i] == AnswerAt(env, tools, calls[i], AT_ONCE) {
      assert AnswersCall(env, tools, calls[i], answers[i], times.since, times.starts[i], times.until);
      var w :| AnswerAt(env, tools, calls[i], w) == answers[i]
        && Timely(env, w, times.since, times.starts[i], times.until);
      if w.aborted { AbortsStay(env, times.since, w.decided, times.until); }
      AnswerIsStable(env, tools, calls[i], w);
    }
  }

  /** What a batch of tool calls did. `through` says which calls were let through, and `phase` is the
      concurrent part of a concurrent batch. */
  datatype RawBatch = Batch(sequential: bool, outs: seq<Finalized>, updates: seq<seq<string>>, through: seq<bool>,
    phase: seq<Event>)

  predicate IsBatch(b: RawBatch) {
    |b.outs| == |b.updates| == |b.through|
  }

  type Batch = b: RawBatch | IsBatch(b) witness Batch(true, [], [], [], [])

  const NO_BATCH: Batch := Batch(true, [], [], [], [])

  function AnswersIn(b: Batch): seq<Answer> {
    AnswersOf(b.outs, b.updates, b.through)
  }

  function BatchEvents(b: Batch): seq<Event> {
    if b.sequential then SequentialEvents(b.outs, b.updates) else b.phase + Pairs(Results(b.outs))
  }

  /** One turn: what was injected, what was asked and answered, and what the hooks decided after it. */
  datatype Turn = Turn(
    prompts: seq<Message>,
    steered: seq<Message>,
    followed: seq<Message>,
    request: seq<Message>,
    asked: nat,
    stream: seq<Event>,
    message: AssistantMessage,
    tools: seq<Tool>,
    batch: Batch,
    replaced: Option<NewContext>,
    stopped: bool,
    preparedAt: nat,
    judgedAt: nat,
    times: Times)

  /** Other code had aborted the run by the end of the turn's tool batch. */
  predicate WasAborted(env: Env, t: Turn) {
    env.Aborts(t.times.since, t.times.until)
  }

  /** All turns belong to a run that began at `since`, and their batches are over by `now`. */
  predicate Dated(log: seq<Turn>, since: nat, now: nat) {
    forall k :: 0 <= k < |log| ==> log[k].times.since == since && log[k].times.until <= now
  }

  function Injected(t: Turn): seq<Message> {
    t.prompts + t.steered + t.followed
  }

  function TurnMessages(t: Turn): seq<Message> {
    Injected(t) + [t.message] + Results(t.batch.outs)
  }

  /** The part of a turn before its tool batch. */
  function TurnHead(t: Turn): seq<Event> {
    [TurnStart] + Pairs(Injected(t)) + t.stream
  }

  function TurnEvents(t: Turn): seq<Event> {
    TurnHead(t) + BatchEvents(t.batch) + [TurnEnd(t.message, Results(t.batch.outs))]
  }

  /** The loop wants another turn because of this turn's tool batch. */
  predicate Continues(t: Turn) {
    t.batch.outs != [] && !ShouldTerminate(t.batch.outs)
  }

  /** A batch answers the calls of a message; a failed message, or one without calls, has none. */
  ghost predicate ValidBatch(env: Env, tools: seq<Tool>, message: AssistantMessage, batch: Batch, times: Times) {
    var calls := ToolCalls(message);
    if Failed(message) || calls == [] then batch == NO_BATCH
    else
      && Answers(env, tools, calls, AnswersIn(batch), times)
      && batch.sequential == RunsSequentially(env, tools, calls)
      && (!batch.sequential ==> ParallelPhase(batch.phase, batch.outs, batch.updates, batch.through))
  }

  /** The response is the provider's answer to the request, at the time it was asked, as one message. */
  ghost predicate Answered(env: Env, asked: nat, request: seq<Message>, stream: seq<Event>, message: AssistantMessage) {
    var response := env.respond(asked, request);
    message == response.final && stream == StreamEvents(response) && StreamBlock(stream, message)
  }

  ghost predicate ValidTurn(env: Env, t: Turn) {
    && Answered(env, t.asked, t.request, t.stream, t.message)
    && ValidBatch(env, t.tools, t.message, t.batch, t.times)
  }

  /** After a turn that did not fail the hooks were asked, and their answers are what happened next. */
  predicate HooksObeyed(env: Env, t: Turn) {
    if Failed(t.message) then t.replaced.None? && !t.stopped
    else t.replaced == env.prepareNextTurn(t.preparedAt) && t.stopped == env.shouldStopAfterTurn(t.judgedAt)
  }

  /** Why and how a turn follows another one. */
  predicate Linked(t: Turn, u: Turn) {
    && !Failed(t.message) && !t.stopped
    && u.prompts == []
    && (Continues(t) || u.steered != [] || u.followed != [])
    && (u.followed != [] ==> !Continues(t) && u.steered == [])
  }

  function ContextAfter(start: seq<Message>, log: seq<Turn>): seq<Message> {
    if log == [] then start
    else
      var t := log[|log| - 1];
      if t.replaced.Some? then t.replaced.value.messages
      else ContextAfter(start, log[..|log| - 1]) + TurnMessages(t)
  }

  function ToolsAfter(tools: seq<Tool>, log: seq<Turn>): seq<Tool> {
    if log == [] then tools
    else
      var t := log[|log| - 1];
      if t.replaced.Some? then t.replaced.value.tools else ToolsAfter(tools, log[..|log| - 1])
  }

  /** A turn follows from the earlier ones by the rules of the loop. */
  ghost predicate Follows(env: Env, start: seq<Message>, tools: seq<Tool>, log: seq<Turn>, t: Turn) {
    && ValidTurn(env, t) && HooksObeyed(env, t)
    && t.request == ContextAfter(start, log) + Injected(t)
    && t.tools == ToolsAfter(tools, log)
    && (if log == [] then t.followed == [] else Linked(log[|log| - 1], t))
  }

  /** The turns so far follow from the start context and the tools by the rules of the loop. */
  ghost predicate Run(env: Env, start: seq<Message>, tools: seq<Tool>, log: seq<Turn>) {
    forall k :: 0 <= k < |log| ==> Follows(env, start, tools, log[..k], log[k])
  }

  lemma RunSnoc(env: Env, start: seq<Message>, tools: seq<Tool>, log: seq<Turn>, t: Turn)
    requires Run(env, start, tools, log) && Follows(env, start, tools, log, t)
    ensures Run(env, start, tools, log + [t])
  {
    hide Follows;
    var all := log + [t];
    forall k | 0 <= k < |all| ensures Follows(env, start, tools, all[..k], all[k]) {
      assert all[..k] == log[..k];
      if k == |log| {
        assert log[..k] == log;
      }
    }
  }

  lemma PrefixRun(env: Env, start: seq<Message>, tools: seq<Tool>, log: seq<Turn>, k: nat)
    requires Run(env, start, tools, log) && k <= |log|
    ensures Run(env, start, tools, log[..k])
  {
    hide Follows;
    forall i | 0 <= i < k ensures Follows(env, start, tools, log[..k][..i], log[..k][i]) {
      assert log[..k][..i] == log[..i];
    }
  }

  function Render(log: seq<Turn>): seq<Event> {
    if log == [] then [] else Render(log[..|log| - 1]) + TurnEvents(log[|log| - 1])
  }

  /** The messages that the turns add, in order. */
  function Delivered(log: seq<Turn>): seq<Message> {
    if log == [] then [] else Delivered(log[..|log| - 1]) + TurnMessages(log[|log| - 1])
  }

  function Steered(log: seq<Turn>): seq<Message> {
    if log == [] then [] else Steered(log[..|log| - 1]) + log[|log| - 1].steered
  }

  function FollowedUp(log: seq<Turn>): seq<Message> {
    if log == [] then [] else FollowedUp(log[..|log| - 1]) + log[|log| - 1].followed
  }

  /** The number of tool batches that asked for another turn. */
  function Continuations(log: seq<Turn>): nat {
    if log == [] then 0
    else Continuations(log[..|log| - 1]) + (if Continues(log[|log| - 1]) then 1 else 0)
  }

  // ---- Transcript agreement ----

  lemma CallAndResultEnds(slot: nat, f: Finalized, us: seq<string>)
    ensures Ended(CallAndResult(slot, f, us)) == [ResultMessage(f)]
  {
    var calls := CallEvents(slot, f, us);
    var pair := Pairs([ResultMessage(f)]);
    PairsSnoc([], ResultMessage(f));
    assert [] + [ResultMessage(f)] == [ResultMessage(f)];
    assert CallAndResult(slot, f, us) == calls + pair;
    NothingEndsInToolEvents(calls);
    EndedPairs([ResultMessage(f)]);
    EndedAppend(calls, pair);
  }

  lemma {:induction false} SequentialEventsEnd(outs: seq<Finalized>, updates: seq<seq<string>>)
    requires |outs| == |updates|
    ensures Ended(SequentialEvents(outs, updates)) == Results(outs)
  {
    if outs != [] {
      var n := |outs| - 1;
      SequentialEventsEnd(outs[..n], updates[..n]);
      var head := SequentialEvents(outs[..n], updates[..n]);
      CallAndResultEnds(n, outs[n], updates[n]);
      EndedAppend(head, CallAndResult(n, outs[n], updates[n]));
      ResultsSnoc(outs[..n], outs[n]);
      assert outs == outs[..n] + [outs[n]];
    }
  }

  lemma BatchEnds(env: Env, t: Turn)
    requires ValidBatch(env, t.tools, t.message, t.batch, t.times)
    ensures Ended(BatchEvents(t.batch)) == Results(t.batch.outs)
  {
    var b := t.batch;
    if b.sequential {
      SequentialEventsEnd(b.outs, b.updates);
    } else {
      NothingEndsInToolEvents(b.phase);
      EndedPairs(Results(b.outs));
      EndedAppend(b.phase, Pairs(Results(b.outs)));
    }
  }

  lemma HeadBlock(t: Turn)
    requires StreamBlock(t.stream, t.message)
    ensures Ended(TurnHead(t)) == Injected(t) + [t.message]
  {
    var a, b := [TurnStart], Pairs(Injected(t));
    EndedPairs(Injected(t));
    StreamEnds(t.stream, t.message);
    assert Ended(a) == [];
    EndedAppend(a, b);
    EndedAppend(a + b, t.stream);
  }

  /** A turn completes exactly its own messages. */
  lemma TurnEnds(env: Env, t: Turn)
    requires ValidTurn(env, t)
    ensures Ended(TurnEvents(t)) == TurnMessages(t)
  {
    HeadBlock(t);
    BatchEnds(env, t);
    hide Ended, TurnHead, BatchEvents, ValidTurn;
    EndedAppend(TurnHead(t), BatchEvents(t.batch));
    EndedSnoc(TurnHead(t) + BatchEvents(t.batch), TurnEnd(t.message, Results(t.batch.outs)));
  }

  /** The completed messages of a run are exactly the messages its turns deliver. */
  lemma {:induction false} RunEnds(env: Env, start: seq<Message>, tools: seq<Tool>, log: seq<Turn>)
    requires Run(env, start, tools, log)
    ensures Ended(Render(log)) == Delivered(log)
  {
    if log != [] {
      var n := |log| - 1;
      PrefixRun(env, start, tools, log, n);
      assert Follows(env, start, tools, log[..n], log[n]);
      RunEnds(env, start, tools, log[..n]);
      TurnEnds(env, log[n]);
      EndedAppend(Render(log[..n]), TurnEvents(log[n]));
    }
  }

  /** The whole trace of a run. */
  function Trace(log: seq<Turn>): seq<Event> {
    [AgentStart] + Render(log) + [AgentEnd(Delivered(log))]
  }

  /** The completed messages of a whole trace are the payload of its `agent_end`. */
  lemma TraceEnds(env: Env, start: seq<Message>, tools: seq<Tool>, log: seq<Turn>)
    requires Run(env, start, tools, log)
    ensures Ended(Trace(log)) == Delivered(log)
  {
    RunEnds(env, start, tools, log);
    var d, first := Delivered(log), [AgentStart];
    assert Ended(first) == [];
    hide Run, Ended, Render, Delivered;
    EndedAppend(first, Render(log));
    assert [] + d == d;
    EndedSnoc(first + Render(log), AgentEnd(d));
  }

  /** The agent's transcript after a complete run is the old one followed by the payload of
      `agent_end`: nothing is lost and nothing appears twice. */
  lemma TranscriptAgreement(env: Env, start: seq<Message>, tools: seq<Tool>, log: seq<Turn>, v: View)
    requires Run(env, start, tools, log)
    ensures ReduceAll(v, Trace(log)).messages == v.messages + Delivered(log)
  {
    TraceEnds(env, start, tools, log);
    TranscriptIsEnded(v, Trace(log));
  }

  // ---- Pending tool calls over a run ----

  lemma BatchIsComplete(env: Env, t: Turn)
    requires ValidBatch(env, t.tools, t.message, t.batch, t.times)
    ensures Complete(BatchEvents(t.batch), t.batch.outs, t.batch.updates)
  {
    if t.batch.sequential {
      SequentialIsComplete(t.batch.outs, t.batch.updates);
    } else {
      ParallelIsComplete(t.batch.phase, t.batch.outs, t.batch.updates, t.batch.through);
    }
  }

  lemma {:induction false} NoToolsNoChange(v: View, es: seq<Event>)
    requires forall i :: 0 <= i < |es| ==> !IsToolEvent(es[i])
    ensures ReduceAll(v, es).pending == v.pending
  {
    if es != [] {
      NoToolsNoChange(v, es[..|es| - 1]);
    }
  }

  lemma ToolFreeSum(a: seq<Event>, b: seq<Event>)
    requires forall i :: 0 <= i < |a| ==> !IsToolEvent(a[i])
    requires forall i :: 0 <= i < |b| ==> !IsToolEvent(b[i])
    ensures forall i :: 0 <= i < |a + b| ==> !IsToolEvent((a + b)[i])
  {
    hide IsToolEvent;
    forall i | 0 <= i < |a + b| ensures !IsToolEvent((a + b)[i]) {
      if i < |a| { assert (a + b)[i] == a[i]; } else { assert (a + b)[i] == b[i - |a|]; }
    }
  }

  lemma HeadHasNoTools(env: Env, t: Turn)
    requires ValidTurn(env, t)
    ensures forall i :: 0 <= i < |TurnHead(t)| ==> !IsToolEvent(TurnHead(t)[i])
  {
    var head, injected := [TurnStart], Pairs(Injected(t));
    assert StreamBlock(t.stream, t.message) && !IsToolEvent(head[0]);
    PairsProjectToNothing(Injected(t), 0);
    assert forall i :: 0 <= i < |t.stream| ==> !IsToolEvent(t.stream[i]);
    hide Pairs, ValidTurn, Injected, StreamBlock, IsToolEvent;
    ToolFreeSum(head, injected);
    ToolFreeSum(head + injected, t.stream);
  }

  /** No call is pending after a turn, even if calls shared an identifier. */
  lemma NothingPendingAfterATurn(env: Env, t: Turn, v: View)
    requires ValidTurn(env, t) && v.pending == {}
    ensures ReduceAll(v, TurnEvents(t)).pending == {}
  {
    var b := t.batch;
    var w := ReduceAll(v, TurnHead(t));
    HeadHasNoTools(env, t);
    NoToolsNoChange(v, TurnHead(t));
    BatchIsComplete(env, t);
    hide ValidTurn, Reduce, ReduceAll, BatchEvents, TurnHead, Complete, InOrder, OpenIds;
    NothingOpenWhenComplete(BatchEvents(b), b.outs, b.updates);
    PendingIsOpen(w, BatchEvents(b), b.outs, b.updates);
    ReduceAppend(v, TurnHead(t), BatchEvents(b));
    ReduceSnoc(v, TurnHead(t) + BatchEvents(b), TurnEnd(t.message, Results(b.outs)));
    EndKeepsPending(ReduceAll(v, TurnHead(t) + BatchEvents(b)), t.message, Results(b.outs));
  }

  lemma EndKeepsPending(v: View, m: Message, rs: seq<Message>)
    ensures Reduce(v, TurnEnd(m, rs)).pending == v.pending
  {
  }

  lemma {:induction false} NothingPendingBetweenTurns(env: Env, start: seq<Message>, tools: seq<Tool>,
      log: seq<Turn>, v: View)
    requires Run(env, start, tools, log) && v.pending == {}
    ensures ReduceAll(v, Render(log)).pending == {}
  {
    if log != [] {
      var n := |log| - 1;
      PrefixRun(env, start, tools, log, n);
      assert Follows(env, start, tools, log[..n], log[n]);
      NothingPendingBetweenTurns(env, start, tools, log[..n], v);
      NothingPendingAfterATurn(env, log[n], ReduceAll(v, Render(log[..n])));
      ReduceAppend(v, Render(log[..n]), TurnEvents(log[n]));
    }
  }

  /** What has been emitted when m events of the tool batch of turn k have been. */
  function UpTo(log: seq<Turn>, k: nat, m: nat): seq<Event>
    requires k < |log| && m <= |BatchEvents(log[k].batch)|
  {
    Render(log[..k]) + TurnHead(log[k]) + BatchEvents(log[k].batch)[..m]
  }

  /** No call of the batch can hide another: it ran call by call, or no call that was let through has the
      identifier of a later one. */
  ghost predicate NoneHidden(b: Batch) {
    b.sequential || NoLaterTwin(b.outs, b.through)
  }

  lemma BatchExactIffNoneHidden(env: Env, t: Turn, v: View)
    requires ValidTurn(env, t) && v.pending == {}
    ensures PendingExactThroughout(v, BatchEvents(t.batch), t.batch.outs) <==> NoneHidden(t.batch)
  {
    var b := t.batch;
    if b.sequential {
      SequentialAlwaysExact(v, b.outs, b.updates);
    } else {
      BatchIsComplete(env, t);
      NothingOpenWhenComplete(BatchEvents(b), b.outs, b.updates);
      ParallelInOrder(b.phase, b.outs, b.updates, b.through);
      PairsProjectToNothing(Results(b.outs), 0);
      hide PendingExactThroughout, NoSharedEnd, NoLaterTwin, ParallelPhase, Complete, InOrder;
      PendingExactIffNoSharedEnd(v, BatchEvents(b), b.outs, b.updates);
      PendingExactIffNoSharedEnd(v, b.phase, b.outs, b.updates);
      ToolFreeTail(b.phase, Pairs(Results(b.outs)), b.outs);
      ParallelExactIffNoLaterTwin(v, b.phase, b.outs, b.updates, b.through);
    }
  }

  /** At the moment when m events of the tool batch of turn k have been emitted, the agent reports as pending
      exactly the calls that have started and not ended. */
  ghost predicate ReportsOpenCalls(log: seq<Turn>, v: View, k: nat, m: nat)
    requires k < |log| && m <= |BatchEvents(log[k].batch)|
  {
    ReduceAll(v, UpTo(log, k, m)).pending == OpenIds(BatchEvents(log[k].batch)[..m], log[k].batch.outs)
  }

  /** In every turn of a run the agent reports exactly the running calls, at every moment, if and only if
      no call of the turn can hide another. No schedule changes this. */
  lemma PendingCallsAreTheOpenOnes(env: Env, start: seq<Message>, tools: seq<Tool>, log: seq<Turn>, v: View, k: nat)
    requires Run(env, start, tools, log) && v.pending == {} && k < |log|
    ensures (forall m: nat :: m <= |BatchEvents(log[k].batch)| ==> ReportsOpenCalls(log, v, k, m))
            <==> NoneHidden(log[k].batch)
  {
    hide ReduceAll, OpenIds, NoneHidden, PendingExactThroughout;
    var t := log[k];
    var es := BatchEvents(t.batch);
    var v1 := ReduceAll(v, Render(log[..k]));
    var v2 := ReduceAll(v1, TurnHead(t));
    assert Follows(env, start, tools, log[..k], t);
    PrefixRun(env, start, tools, log, k);
    NothingPendingBetweenTurns(env, start, tools, log[..k], v);
    HeadHasNoTools(env, t);
    NoToolsNoChange(v1, TurnHead(t));
    hide Run, ValidTurn, Render, TurnHead, BatchEvents;
    BatchExactIffNoneHidden(env, t, v2);
    forall m: nat | m <= |es| ensures ReportsOpenCalls(log, v, k, m) <==> PendingExact(v2, es[..m], t.batch.outs) {
      ReduceAppend(v, Render(log[..k]), TurnHead(t));
      ReduceAppend(v, Render(log[..k]) + TurnHead(t), es[..m]);
    }
    ExactAtEveryMoment(v2, es, t.batch.outs);
  }

  lemma ExactAtEveryMoment(v: View, es: seq<Event>, outs: seq<Finalized>)
    ensures PendingExactThroughout(v, es, outs) <==> forall m: nat :: m <= |es| ==> PendingExact(v, es[..m], outs)
  {
  }

  /** Whether a call can hide another is known before the batch runs: if nobody aborts the run, with tools and
      hooks that answer as functions of the call, it depends on the calls alone. */
  lemma NoneHiddenByCalls(env: Env, t: Turn)
    requires ValidTurn(env, t) && env.Stable() && !WasAborted(env, t)
    requires !Failed(t.message) && ToolCalls(t.message) != []
    ensures var calls := ToolCalls(t.message);
      NoneHidden(t.batch) <==>
        || RunsSequentially(env, t.tools, calls)
        || forall i, j :: 0 <= i < j < |calls| && AnswerAt(env, t.tools, calls[i], AT_ONCE).through ==>
             calls[i].id != calls[j].id
  {
    var calls, b := ToolCalls(t.message), t.batch;
    OnlyAnswers(env, t.tools, calls, AnswersIn(b), t.times);
    forall i | 0 <= i < |calls|
      ensures b.outs[i].call == calls[i] && b.through[i] == AnswerAt(env, t.tools, calls[i], AT_ONCE).through
    {
      assert AnswersIn(b)[i] == AnswerAt(env, t.tools, calls[i], AT_ONCE);
    }
  }

  /** The barrier before tools: at every moment of a tool batch the agent's transcript already contains the
      message that requested it. */
  lemma ToolsSeeTheirMessage(env: Env, start: seq<Message>, tools: seq<Tool>, log: seq<Turn>, v: View, k: nat, m: nat)
    requires Run(env, start, tools, log) && k < |log| && m <= |BatchEvents(log[k].batch)|
    ensures v.messages + (Delivered(log[..k]) + (Injected(log[k]) + [log[k].message])) <=
            ReduceAll(v, UpTo(log, k, m)).messages
  {
    var t := log[k];
    assert Follows(env, start, tools, log[..k], t);
    PrefixRun(env, start, tools, log, k);
    RunEnds(env, start, tools, log[..k]);
    HeadBlock(t);
    hide Ended, TurnHead, Render, Delivered, Injected;
    TranscriptIsEnded(v, UpTo(log, k, m));
    EndedAppend(Render(log[..k]), TurnHead(t));
    EndedAppend(Render(log[..k]) + TurnHead(t), BatchEvents(t.batch)[..m]);
    Assoc(v.messages, Delivered(log[..k]) + (Injected(t) + [t.message]), Ended(BatchEvents(t.batch)[..m]));
  }

  // ---- Mutual exclusion ----

  ghost predicate AllClosed(es: seq<Event>) {
    forall s: nat :: !Open(es, s)
  }

  /** After events that leave no call open, only later events open calls. */
  lemma OpenLater(es: seq<Event>, tail: seq<Event>, s: nat)
    requires AllClosed(es)
    ensures Open(es + tail, s) <==> Open(tail, s)
  {
    assert !Open(es, s);
    hide Project, AllClosed;
    ProjectAppend(es, tail, s);
    var p, q := Project(es, s), Project(tail, s);
    if q == [] { assert p + q == p; } else { assert (p + q)[|p + q| - 1] == q[|q| - 1]; }
  }

  lemma ProjectAfterNothing(a: seq<Event>, b: seq<Event>, s: nat)
    requires Project(a, s) == []
    ensures Project(a + b, s) == Project(b, s)
  {
    ProjectAppend(a, b, s);
    hide Project;
    var p := Project(b, s);
    assert [] + p == p;
  }

  lemma BatchCloses(env: Env, t: Turn, s: nat)
    requires ValidTurn(env, t)
    ensures !Open(BatchEvents(t.batch), s)
  {
    BatchIsComplete(env, t);
    hide ValidTurn, ValidBatch, BatchEvents, Project;
    if s < |t.batch.outs| {
      assert Project(BatchEvents(t.batch), s) == CallEvents(s, t.batch.outs[s], t.batch.updates[s]);
    } else {
      ProjectForeign(BatchEvents(t.batch), s);
    }
  }

  lemma TurnCloses(env: Env, t: Turn, s: nat)
    requires ValidTurn(env, t)
    ensures !Open(TurnEvents(t), s) && Project(TurnHead(t), s) == []
  {
    var es := BatchEvents(t.batch);
    var end := TurnEnd(t.message, Results(t.batch.outs));
    BatchCloses(env, t, s);
    HeadHasNoTools(env, t);
    ProjectForeign(TurnHead(t), s);
    hide Project, BatchEvents, TurnHead, ValidTurn, Open;
    ProjectAfterNothing(TurnHead(t), es, s);
    SameProjection(TurnHead(t) + es, es, s);
    OthersStay(TurnHead(t) + es, end, s);
  }

  lemma SameProjection(a: seq<Event>, b: seq<Event>, s: nat)
    requires Project(a, s) == Project(b, s)
    ensures Open(a, s) <==> Open(b, s)
  {
  }

  /** Between turns no call of the run is open. */
  lemma {:induction false} NothingOpenBetweenTurns(env: Env, start: seq<Message>, tools: seq<Tool>, log: seq<Turn>)
    requires Run(env, start, tools, log)
    ensures AllClosed(Render(log))
  {
    if log != [] {
      var n := |log| - 1;
      PrefixRun(env, start, tools, log, n);
      assert Follows(env, start, tools, log[..n], log[n]);
      NothingOpenBetweenTurns(env, start, tools, log[..n]);
      hide Run, ValidTurn, TurnEvents, Open;
      forall s: nat ensures !Open(Render(log[..n]) + TurnEvents(log[n]), s) {
        TurnCloses(env, log[n], s);
        OpenLater(Render(log[..n]), TurnEvents(log[n]), s);
      }
    }
  }

  /** A call of the run is open exactly if it belongs to the current batch and is open there. */
  lemma OpenInRun(env: Env, start: seq<Message>, tools: seq<Tool>, log: seq<Turn>, k: nat, m: nat, s: nat)
    requires Run(env, start, tools, log) && k < |log| && m <= |BatchEvents(log[k].batch)|
    ensures Open(UpTo(log, k, m), s) <==> Open(BatchEvents(log[k].batch)[..m], s)
  {
    var t := log[k];
    var now := BatchEvents(t.batch)[..m];
    assert Follows(env, start, tools, log[..k], t);
    PrefixRun(env, start, tools, log, k);
    NothingOpenBetweenTurns(env, start, tools, log[..k]);
    TurnCloses(env, t, s);
    hide Run, ValidTurn, Render, BatchEvents, Project, AllClosed;
    OpenLater(Render(log[..k]), TurnHead(t) + now, s);
    ProjectAfterNothing(TurnHead(t), now, s);
    Assoc(Render(log[..k]), TurnHead(t), now);
  }

  /** Mutual exclusion over the whole run: in sequential mode, and while a batch executes of which one
      tool-call block means a tool marked sequential, at most one call of the run is between its start and
      its end. */
  lemma SequentialToolsRunAlone(env: Env, start: seq<Message>, tools: seq<Tool>, log: seq<Turn>, k: nat, m: nat)
    requires Run(env, start, tools, log) && k < |log| && m <= |BatchEvents(log[k].batch)|
    requires WantsSequential(env, log[k].tools, log[k].message.content)
    ensures AtMostOneOpen(UpTo(log, k, m))
  {
    var t := log[k];
    assert Follows(env, start, tools, log[..k], t);
    ModeIsAsWanted(env, t.tools, t.message.content);
    hide WantsSequential, RunsSequentially;
    assert t.batch.sequential;
    SequentialIsExclusive(t.batch.outs, t.batch.updates, m);
    hide Run, UpTo, Open, BatchEvents;
    forall s: nat, u: nat | Open(UpTo(log, k, m), s) && Open(UpTo(log, k, m), u) ensures s == u {
      OpenInRun(env, start, tools, log, k, m, s);
      OpenInRun(env, start, tools, log, k, m, u);
    }
  }

  /** Every other batch with calls runs them concurrently. */
  lemma OtherToolsRunTogether(env: Env, start: seq<Message>, tools: seq<Tool>, log: seq<Turn>, k: nat)
    requires Run(env, start, tools, log) && k < |log|
    requires log[k].message.stopReason != Error && log[k].message.stopReason != Aborted
    requires exists p :: 0 <= p < |log[k].message.content| && log[k].message.content[p].Call?
    requires !WantsSequential(env, log[k].tools, log[k].message.content)
    ensures !log[k].batch.sequential
    ensures ParallelPhase(log[k].batch.phase, log[k].batch.outs, log[k].batch.updates, log[k].batch.through)
  {
    var t := log[k];
    assert Follows(env, start, tools, log[..k], t);
    ModeIsAsWanted(env, t.tools, t.message.content);
    var at := CallsAreTheCallBlocks(t.message.content);
    var p :| 0 <= p < |t.message.content| && t.message.content[p].Call?;
    assert p in at;
    hide Run, Follows, Answers, ParallelPhase, WantsSequential, RunsSequentially, CallsIn;
    assert ValidTurn(env, t);
  }

  // ---- Calls and results in the context ----

  /** The results answer the tool-call blocks at these positions: one per block, in order, with its identifier
      and name; all of them unless the run was aborted, and at least one if there are any. */
  predicate ResultsAnswer(content: seq<Block>, at: seq<nat>, results: seq<Message>, aborted: bool) {
    && |results| <= |at| && (at != [] ==> results != []) && (!aborted ==> |results| == |at|)
    && forall i :: 0 <= i < |results| ==>
         && at[i] < |content| && content[at[i]].Call?
         && results[i].ToolResult?
         && results[i].callId == content[at[i]].call.id && results[i].toolName == content[at[i]].call.name
  }

  /** The results of a turn that did not fail match all tool-call blocks of its response. */
  ghost predicate ResultsMatch(content: seq<Block>, results: seq<Message>, aborted: bool) {
    exists at :: CallPositions(content, at) && ResultsAnswer(content, at, results, aborted)
  }

  lemma OutsAreTheCalls(env: Env, t: Turn)
    requires ValidTurn(env, t) && t.message.stopReason != Error && t.message.stopReason != Aborted
    ensures var calls, outs := CallsIn(t.message.content), t.batch.outs;
      && |outs| <= |calls| && (calls != [] ==> outs != []) && (!WasAborted(env, t) ==> |outs| == |calls|)
      && forall i :: 0 <= i < |outs| ==> outs[i].call == calls[i]
  {
    hide CallsIn, Env.Aborts, AnswerAt, ParallelPhase, RunsSequentially, Answered;
    var calls, outs := CallsIn(t.message.content), t.batch.outs;
    if calls != [] {
      forall i | 0 <= i < |outs| ensures outs[i].call == calls[i] {
        assert AnswersCall(env, t.tools, calls[i], AnswersIn(t.batch)[i], t.times.since, t.times.starts[i],
          t.times.until);
      }
    }
  }

  lemma TurnResultsMatch(env: Env, t: Turn)
    requires ValidTurn(env, t) && t.message.stopReason != Error && t.message.stopReason != Aborted
    ensures ResultsMatch(t.message.content, Results(t.batch.outs), WasAborted(env, t))
  {
    OutsAreTheCalls(env, t);
    var at := CallsAreTheCallBlocks(t.message.content);
    hide ValidTurn, WasAborted, CallsIn, CallPositions;
    assert ResultsAnswer(t.message.content, at, Results(t.batch.outs), WasAborted(env, t));
  }

  /** A response that failed or was aborted ends the run, and none of its calls is executed. */
  lemma FailedResponsesEndTheRun(env: Env, start: seq<Message>, tools: seq<Tool>, log: seq<Turn>, k: nat)
    requires Run(env, start, tools, log) && k < |log|
    requires log[k].message.stopReason == Error || log[k].message.stopReason == Aborted
    ensures k == |log| - 1 && log[k].batch.outs == [] && BatchEvents(log[k].batch) == []
    ensures log[k].replaced.None? && !log[k].stopped
  {
    assert Follows(env, start, tools, log[..k], log[k]);
    if k + 1 < |log| { Links(env, start, tools, log, k + 1); }
  }

  /** Why another turn follows: a message was drained for it, or some result of the turn before does not ask
      to stop. Follow-ups wait until every result asks to stop. */
  lemma WhyTurnsFollow(env: Env, start: seq<Message>, tools: seq<Tool>, log: seq<Turn>, k: nat)
    requires Run(env, start, tools, log) && 0 < k < |log|
    ensures var outs := log[k - 1].batch.outs;
      && (log[k].steered != [] || log[k].followed != [] ||
          exists i :: 0 <= i < |outs| && outs[i].output.terminate != Some(true))
      && (log[k].followed != [] ==> forall i :: 0 <= i < |outs| ==> outs[i].output.terminate == Some(true))
  {
    Links(env, start, tools, log, k);
  }

  lemma TurnNotAborted(env: Env, log: seq<Turn>, since: nat, now: nat, k: nat)
    requires Dated(log, since, now) && !env.Aborts(since, now) && k < |log|
    ensures !WasAborted(env, log[k])
  {
    hide Env.Aborts;
    if WasAborted(env, log[k]) { AbortsStay(env, since, log[k].times.until, now); }
  }

  /** If nobody aborts the run, every turn answers all its calls, and with tools and hooks that answer as
      functions of the call there is only one way to answer them. */
  lemma NobodyAborted(env: Env, start: seq<Message>, tools: seq<Tool>, log: seq<Turn>, since: nat, now: nat, k: nat)
    requires Run(env, start, tools, log) && Dated(log, since, now) && !env.Aborts(since, now)
    requires k < |log| && log[k].message.stopReason != Error && log[k].message.stopReason != Aborted
    ensures var calls := ToolCalls(log[k].message);
      && ResultsMatch(log[k].message.content, Results(log[k].batch.outs), false)
      && |log[k].batch.outs| == |calls|
      && (env.Stable() && calls != [] ==> AnswersIn(log[k].batch) == AnswersTo(env, log[k].tools, calls))
  {
    assert Follows(env, start, tools, log[..k], log[k]);
    TurnNotAborted(env, log, since, now, k);
    hide Run, Follows, HooksObeyed, Env.Aborts, Env.Stable, Dated;
    var t := log[k];
    TurnResultsMatch(env, t);
    if env.Stable() && ToolCalls(t.message) != [] {
      OnlyAnswers(env, t.tools, ToolCalls(t.message), AnswersIn(t.batch), t.times);
    }
  }

  /** Where the response of turn j stands in the context. */
  function ResponseAt(start: seq<Message>, log: seq<Turn>, j: nat): nat
    requires j < |log|
  {
    |ContextAfter(start, log[..j])| + |Injected(log[j])|
  }

  /** At the request of every later turn the response of turn j is immediately followed in the context
      by the matching results. */
  lemma CallsArePairedWithResults(env: Env, start: seq<Message>, tools: seq<Tool>, log: seq<Turn>, j: nat, k: nat)
    requires Run(env, start, tools, log) && j < k < |log|
    requires forall i :: j <= i < k ==> log[i].replaced.None?
    ensures var t := log[j];
      var results := Results(t.batch.outs);
      var at := ResponseAt(start, log, j);
      && ResultsMatch(t.message.content, results, WasAborted(env, t))
      && at + 1 + |results| <= |log[k].request|
      && log[k].request[at] == t.message
      && log[k].request[at + 1..at + 1 + |results|] == results
  {
    assert Follows(env, start, tools, log[..j], log[j]);
    assert Follows(env, start, tools, log[..j + 1], log[j + 1]);
    TurnResultsMatch(env, log[j]);
    assert Follows(env, start, tools, log[..k], log[k]);
    ContextKeepsTurn(start, log, j, k);
    PairedInContext(start, log, j, k);
  }

  lemma PairedInContext(start: seq<Message>, log: seq<Turn>, j: nat, k: nat)
    requires j < k < |log|
    requires ContextAfter(start, log[..j]) + TurnMessages(log[j]) <= ContextAfter(start, log[..k]) <= log[k].request
    ensures var results := Results(log[j].batch.outs);
      var at := ResponseAt(start, log, j);
      && at + 1 + |results| <= |log[k].request|
      && log[k].request[at] == log[j].message
      && log[k].request[at + 1..at + 1 + |results|] == results
  {
    var t := log[j];
    var before, results := ContextAfter(start, log[..j]), Results(t.batch.outs);
    assert before + TurnMessages(t) == before + Injected(t) + [t.message] + results;
    PrefixPrefix(before + TurnMessages(t), ContextAfter(start, log[..k]), log[k].request);
    MiddleOfPrefix(before + Injected(t), t.message, results, log[k].request);
  }

  lemma PrefixPrefix(a: seq<Message>, b: seq<Message>, c: seq<Message>)
    requires a <= b && b <= c
    ensures a <= c
  {
  }

  lemma MiddleOfPrefix(a: seq<Message>, m: Message, b: seq<Message>, c: seq<Message>)
    requires a + [m] + b <= c
    ensures |a| + 1 + |b| <= |c| && c[|a|] == m && c[|a| + 1..|a| + 1 + |b|] == b
  {
    var whole := a + [m] + b;
    assert c[|a|] == whole[|a|];
    assert forall i :: 0 <= i < |b| ==> c[|a| + 1 + i] == whole[|a| + 1 + i] == b[i];
  }

  lemma {:induction false} ContextKeepsTurn(start: seq<Message>, log: seq<Turn>, j: nat, k: nat)
    requires j < k <= |log|
    requires forall i :: j <= i < k ==> log[i].replaced.None?
    ensures ContextAfter(start, log[..j]) + TurnMessages(log[j]) <= ContextAfter(start, log[..k])
  {
    assert log[..k][..k - 1] == log[..k - 1];
    if j < k - 1 {
      ContextKeepsTurn(start, log, j, k - 1);
    }
  }

  /** Without replacement the context is the start followed by what the run delivered. */
  lemma {:induction false} ContextIsDelivered(start: seq<Message>, log: seq<Turn>)
    requires forall i :: 0 <= i < |log| ==> log[i].replaced.None?
    ensures ContextAfter(start, log) == start + Delivered(log)
  {
    if log != [] {
      ContextIsDelivered(start, log[..|log| - 1]);
      Assoc(start, Delivered(log[..|log| - 1]), TurnMessages(log[|log| - 1]));
    }
  }

  /** What a turn has emitted when it asks for its response. */
  function UpToRequest(log: seq<Turn>, k: nat): seq<Event>
    requires k < |log|
  {
    [AgentStart] + Render(log[..k]) + ([TurnStart] + Pairs(Injected(log[k])))
  }

  /** As long as the context is not replaced, every request is the agent's own transcript of that moment. */
  lemma RequestsAreTheTranscript(env: Env, start: seq<Message>, tools: seq<Tool>, log: seq<Turn>, v: View, k: nat)
    requires Run(env, start, tools, log) && k < |log| && v.messages == start
    requires forall i :: 0 <= i < k ==> log[i].replaced.None?
    ensures log[k].request == ReduceAll(v, UpToRequest(log, k)).messages
  {
    var before, opening := Render(log[..k]), [TurnStart] + Pairs(Injected(log[k]));
    assert Follows(env, start, tools, log[..k], log[k]);
    PrefixRun(env, start, tools, log, k);
    ContextIsDelivered(start, log[..k]);
    OpeningEnds(Injected(log[k]));
    hide Run, Follows, Render, Delivered, Pairs, Ended, ReduceAll;
    RunEnds(env, start, tools, log[..k]);
    EndedAppend([AgentStart], before);
    EndedAppend([AgentStart] + before, opening);
    TranscriptIsEnded(v, UpToRequest(log, k));
    var d := Delivered(log[..k]);
    assert [] + d == d;
    Assoc(start, d, Injected(log[k]));
  }

  lemma OpeningEnds(ms: seq<Message>)
    ensures Ended([AgentStart]) == [] && Ended([TurnStart] + Pairs(ms)) == ms
  {
    EndedPairs(ms);
    EndedAppend([TurnStart], Pairs(ms));
    assert Ended([TurnStart]) == [] && [] + ms == ms;
  }

  // ---- How long a run can be ----

  lemma Links(env: Env, start: seq<Message>, tools: seq<Tool>, log: seq<Turn>, k: nat)
    requires Run(env, start, tools, log) && k < |log|
    ensures if k == 0 then log[k].followed == [] else Linked(log[k - 1], log[k])
  {
    assert Follows(env, start, tools, log[..k], log[k]);
    if k > 0 {
      assert log[..k][k - 1] == log[k - 1];
    }
  }

  /** Every turn after the first was caused by a continuing tool batch or by a drained message. */
  lemma TurnBound(env: Env, start: seq<Message>, tools: seq<Tool>, log: seq<Turn>)
    requires Run(env, start, tools, log)
    ensures |log| <= 1 + Continuations(log) + |Steered(log)| + |FollowedUp(log)|
  {
    forall k | 0 < k < |log| ensures Linked(log[k - 1], log[k]) {
      Links(env, start, tools, log, k);
    }
    TurnBoundByLinks(log);
  }

  lemma {:induction false} TurnBoundByLinks(log: seq<Turn>)
    requires forall k :: 0 < k < |log| ==> Linked(log[k - 1], log[k])
    ensures log != [] ==>
      |log| + (if Continues(log[|log| - 1]) then 1 else 0) <=
      1 + Continuations(log) + |Steered(log)| + |FollowedUp(log)|
  {
    if |log| > 1 {
      var n := |log| - 1;
      var before := log[..n];
      assert forall k :: 0 <= k < n ==> before[k] == log[k];
      TurnBoundByLinks(before);
      assert before[n - 1] == log[n - 1];
      assert Linked(log[n - 1], log[n]);
      assert |Steered(log)| == |Steered(before)| + |log[n].steered|;
      assert |FollowedUp(log)| == |FollowedUp(before)| + |log[n].followed|;
    }
  }

  // ---- Pacing ----

  /** Follow-ups are injected only after a turn without a continuing batch and without steering, and
      never after a failed turn or a requested stop. */
  lemma FollowUpsWaitTheirTurn(env: Env, start: seq<Message>, tools: seq<Tool>, log: seq<Turn>, k: nat)
    requires Run(env, start, tools, log) && k < |log| && log[k].followed != []
    ensures k > 0 && !Continues(log[k - 1]) && log[k].steered == []
    ensures !Failed(log[k - 1].message) && !log[k - 1].stopped
  {
    Links(env, start, tools, log, k);
  }

  // ---- Where the drained messages went ----

  datatype Source = Prompted | FromSteering | FromFollowUp | Produced

  datatype Tagged = Tagged(source: Source, message: Message)

  function Tag(source: Source, ms: seq<Message>): (r: seq<Tagged>)
    ensures |r| == |ms| && forall i :: 0 <= i < |ms| ==> r[i] == Tagged(source, ms[i])
  {
    seq(|ms|, i requires 0 <= i < |ms| => Tagged(source, ms[i]))
  }

  /** The messages of a run with where they came from. */
  function Annotated(log: seq<Turn>): seq<Tagged> {
    if log == [] then []
    else
      var t := log[|log| - 1];
      Annotated(log[..|log| - 1]) + TurnTags(t)
  }

  function Untagged(ts: seq<Tagged>): seq<Message> {
    seq(|ts|, i requires 0 <= i < |ts| => ts[i].message)
  }

  lemma UntaggedAppend(a: seq<Tagged>, b: seq<Tagged>)
    ensures Untagged(a + b) == Untagged(a) + Untagged(b)
  {
  }

  /** The messages from one source, in transcript order. */
  function Only(source: Source, ts: seq<Tagged>): seq<Message> {
    if ts == [] then []
    else Only(source, ts[..|ts| - 1]) + (if ts[|ts| - 1].source == source then [ts[|ts| - 1].message] else [])
  }

  lemma {:induction false} OnlyAppend(source: Source, a: seq<Tagged>, b: seq<Tagged>)
    ensures Only(source, a + b) == Only(source, a) + Only(source, b)
  {
    if b == [] {
      assert a + b == a;
    } else {
      var n := |b| - 1;
      OnlyAppend(source, a, b[..n]);
      assert (a + b)[..|a + b| - 1] == a + b[..n];
    }
  }

  lemma OnlySnoc(source: Source, ts: seq<Tagged>, t: Tagged)
    ensures Only(source, ts + [t]) == Only(source, ts) + (if t.source == source then [t.message] else [])
  {
    assert (ts + [t])[..|ts|] == ts;
  }

  lemma {:induction false} OnlyTag(source: Source, tag: Source, ms: seq<Message>)
    ensures Only(source, Tag(tag, ms)) == if tag == source then ms else []
  {
    if ms != [] {
      var front, last := ms[..|ms| - 1], ms[|ms| - 1];
      assert ms == front + [last];
      assert Tag(tag, ms) == Tag(tag, front) + [Tagged(tag, last)];
      hide Only, Tag;
      OnlyTag(source, tag, front);
      OnlySnoc(source, Tag(tag, front), Tagged(tag, last));
    }
  }

  /** The transcript of a run contains the steering messages, and separately the follow-ups, that were
      drained, each exactly once and in the order in which they were queued. */
  lemma {:induction false} DrainedMessagesAreInTheTranscript(log: seq<Turn>)
    ensures Untagged(Annotated(log)) == Delivered(log)
    ensures Only(FromSteering, Annotated(log)) == Steered(log)
    ensures Only(FromFollowUp, Annotated(log)) == FollowedUp(log)
  {
    if log != [] {
      var n := |log| - 1;
      var t := log[n];
      DrainedMessagesAreInTheTranscript(log[..n]);
      UntaggedAppend(Annotated(log[..n]), TurnTags(t));
      TurnSources(t);
      OnlyOfTurn(FromSteering, t);
      OnlyOfTurn(FromFollowUp, t);
      var last := TurnTags(t);
      OnlyAppend(FromSteering, Annotated(log[..n]), last);
      OnlyAppend(FromFollowUp, Annotated(log[..n]), last);
    }
  }

  function TurnTags(t: Turn): seq<Tagged> {
    Tag(Prompted, t.prompts) + Tag(FromSteering, t.steered) + Tag(FromFollowUp, t.followed)
      + Tag(Produced, [t.message] + Results(t.batch.outs))
  }

  lemma OnlyFour(source: Source, a: seq<Tagged>, b: seq<Tagged>, c: seq<Tagged>, d: seq<Tagged>)
    ensures Only(source, a + b + c + d) == Only(source, a) + Only(source, b) + Only(source, c) + Only(source, d)
  {
    OnlyAppend(source, a, b);
    OnlyAppend(source, a + b, c);
    OnlyAppend(source, a + b + c, d);
  }

  lemma OnlyOfTurn(source: Source, t: Turn)
    requires source == FromSteering || source == FromFollowUp
    ensures Only(source, TurnTags(t)) == if source == FromSteering then t.steered else t.followed
  {
    hide Only, Tag;
    var produced := [t.message] + Results(t.batch.outs);
    OnlyFour(source, Tag(Prompted, t.prompts), Tag(FromSteering, t.steered), Tag(FromFollowUp, t.followed),
        Tag(Produced, produced));
    OnlyTag(source, Prompted, t.prompts);
    OnlyTag(source, FromSteering, t.steered);
    OnlyTag(source, FromFollowUp, t.followed);
    OnlyTag(source, Produced, produced);
  }

  lemma TurnSources(t: Turn)
    ensures Untagged(TurnTags(t)) == TurnMessages(t)
  {
  }
}
