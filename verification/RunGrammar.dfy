/** Every run of the agent obeys the grammar of runs. */
module RunGrammar {
  import opened Messages
  import opened Oracles
  import opened Events
  import opened Grammar
  import opened Streaming
  import opened ToolBatch
  import opened RunLog

  lemma {:induction false} ReadSequential(n: nat, ended: seq<Message>, turn: TurnSoFar, outs: seq<Finalized>,
      updates: seq<seq<string>>)
    requires |outs| == |updates| && turn.tools.None?
    ensures ReadAll(InTurnAfter(n, ended, turn), SequentialEvents(outs, updates)) ==
      InTurnAfter(n, ended, WithResults(turn, outs))
  {
    var s := InTurnAfter(n, ended, turn);
    if outs == [] {
      assert turn.own + [] == turn.own;
    } else {
      var k := |outs| - 1;
      var head, last := SequentialEvents(outs[..k], updates[..k]), CallAndResult(k, outs[k], updates[k]);
      assert SequentialEvents(outs, updates) == head + last;
      ReadSequential(n, ended, turn, outs[..k], updates[..k]);
      hide ReadAll, SequentialEvents, CallAndResult, Results;
      ReadCall(n, ended, WithResults(turn, outs[..k]), k, outs[k], updates[k]);
      OneMoreResult(turn, outs);
      ReadTwo(s, head, InTurnAfter(n, ended, WithResults(turn, outs[..k])), last,
        InTurnAfter(n, ended, WithResults(turn, outs)));
    }
  }

  /** A turn after some tool calls and their results. */
  function WithResults(turn: TurnSoFar, outs: seq<Finalized>): TurnSoFar {
    TurnSoFar(turn.own + Results(outs), turn.streamed,
      if outs == [] || turn.tools.Some? then turn.tools else Some(|turn.own|))
  }

  lemma OneMoreResult(turn: TurnSoFar, outs: seq<Finalized>)
    requires outs != []
    ensures var k := |outs| - 1;
      WithResults(WithResults(turn, outs[..k]), [outs[k]]) == WithResults(turn, outs)
  {
    var k := |outs| - 1;
    assert outs == outs[..k] + [outs[k]] && [] + [outs[k]] == [outs[k]];
    ResultsSnoc(outs[..k], outs[k]);
    ResultsSnoc([], outs[k]);
    assert Results([]) == [] && [] + [ResultMessage(outs[k])] == [ResultMessage(outs[k])];
    Assoc(turn.own, Results(outs[..k]), [ResultMessage(outs[k])]);
    if k == 0 { assert outs[..k] == [] && turn.own + [] == turn.own; }
  }

  lemma CallParts(slot: nat, f: Finalized, us: seq<string>)
    ensures CallAndResult(slot, f, us) == CallEvents(slot, f, us) + Pairs([ResultMessage(f)])
    ensures CallEvents(slot, f, us) != [] && Results([f]) == [ResultMessage(f)]
    ensures forall i :: 0 <= i < |CallEvents(slot, f, us)| ==> IsToolEvent(CallEvents(slot, f, us)[i])
  {
    PairsSnoc([], ResultMessage(f));
    assert [] + [ResultMessage(f)] == [ResultMessage(f)];
  }

  lemma ReadCall(n: nat, ended: seq<Message>, turn: TurnSoFar, slot: nat, f: Finalized, us: seq<string>)
    ensures ReadAll(InTurnAfter(n, ended, turn), CallAndResult(slot, f, us)) ==
      InTurnAfter(n, ended, WithResults(turn, [f]))
  {
    var calls, m := CallEvents(slot, f, us), ResultMessage(f);
    var s := InTurnAfter(n, ended, turn);
    var running := turn.(tools := if turn.tools.Some? then turn.tools else Some(|turn.own|));
    hide ReadAll, Pairs, CallEvents, CallAndResult, Results;
    CallParts(slot, f, us);
    ReadTools(n, ended, turn, calls);
    ReadPairs(n, ended, running, [m]);
    ReadTwo(s, calls, InTurnAfter(n, ended, running), Pairs([m]), InTurnAfter(n, ended, WithResults(turn, [f])));
  }

  lemma ReadBatch(env: Env, t: Turn, n: nat, ended: seq<Message>, turn: TurnSoFar)
    requires ValidTurn(env, t) && turn.tools.None?
    ensures ReadAll(InTurnAfter(n, ended, turn), BatchEvents(t.batch)) ==
      InTurnAfter(n, ended, WithResults(turn, t.batch.outs))
  {
    var b := t.batch;
    if b.sequential {
      ReadSequential(n, ended, turn, b.outs, b.updates);
    } else {
      assert b.phase == [] ==> StartOrder(b.phase) == [];
      assert |Range(|b.outs|)| == |b.outs| > 0;
      var running := turn.(tools := Some(|turn.own|));
      ReadTools(n, ended, turn, b.phase);
      hide ReadAll, Pairs, Results, ParallelPhase;
      ReadPairs(n, ended, running, Results(b.outs));
      ReadTwo(InTurnAfter(n, ended, turn), b.phase, InTurnAfter(n, ended, running), Pairs(Results(b.outs)),
        InTurnAfter(n, ended, WithResults(turn, b.outs)));
    }
  }

  lemma ReadTurnStart(n: nat, ended: seq<Message>)
    ensures ReadAll(AfterTurns(n, ended), [TurnStart]) == InTurnAfter(n, ended, NEW_TURN)
  {
    assert [] + [TurnStart] == [TurnStart];
    ReadSnoc(AfterTurns(n, ended), [], TurnStart);
  }

  lemma ReadHead(t: Turn, n: nat, ended: seq<Message>)
    requires StreamBlock(t.stream, t.message)
    ensures var s := ReadAll(AfterTurns(n, ended), TurnHead(t));
      && s.InTurnAfter? && s.turns == n && s.ended == ended
      && s.turn.own == Injected(t) + [t.message] && s.turn.tools == None
      && (s.turn.streamed.Some? ==> s.turn.streamed == Some(|Injected(t)|))
  {
    var s, injected := AfterTurns(n, ended), Injected(t);
    assert TurnHead(t) == [TurnStart] + Pairs(injected) + t.stream;
    ReadTurnStart(n, ended);
    hide ReadAll, Pairs, Injected, StreamBlock, TurnHead;
    assert [] + injected == injected;
    ReadPairs(n, ended, NEW_TURN, injected);
    var begun := InTurnAfter(n, ended, NEW_TURN.(own := injected));
    ReadTwo(s, [TurnStart], InTurnAfter(n, ended, NEW_TURN), Pairs(injected), begun);
    ReadStream(n, ended, begun.turn, t.stream, t.message);
    ReadTwo(s, [TurnStart] + Pairs(injected), begun, t.stream, ReadAll(begun, t.stream));
  }

  lemma AnswersAreStreams(env: Env, t: Turn)
    requires ValidTurn(env, t)
    ensures StreamBlock(t.stream, t.message)
  {
  }

  lemma OwnMessages(t: Turn, turn: TurnSoFar)
    requires turn.own == Injected(t) + [t.message] && turn.tools == None && t.message.Assistant?
    requires turn.streamed.Some? ==> turn.streamed == Some(|Injected(t)|)
    ensures var all := WithResults(turn, t.batch.outs);
      all.own == TurnMessages(t) && Closes(all, t.message, Results(t.batch.outs))
  {
    hide Injected, Closes, Results;
    ClosesTurn(WithResults(turn, t.batch.outs), Injected(t), t.message, Results(t.batch.outs));
  }

  /** Before its end a turn has shown exactly its own messages, in an order that lets it close. */
  lemma ReadBody(env: Env, t: Turn, n: nat, ended: seq<Message>) returns (turn: TurnSoFar)
    requires ValidTurn(env, t)
    ensures ReadAll(AfterTurns(n, ended), TurnHead(t) + BatchEvents(t.batch)) == InTurnAfter(n, ended, turn)
    ensures turn.own == TurnMessages(t) && Closes(turn, t.message, Results(t.batch.outs))
  {
    AnswersAreStreams(env, t);
    hide *;
    ReadHead(t, n, ended);
    var begun := AfterTurns(n, ended);
    var s, outs := ReadAll(begun, TurnHead(t)), t.batch.outs;
    ReadBatch(env, t, n, ended, s.turn);
    turn := WithResults(s.turn, outs);
    ReadTwo(begun, TurnHead(t), s, BatchEvents(t.batch), InTurnAfter(n, ended, turn));
    OwnMessages(t, s.turn);
  }

  /** A turn is one well-formed turn of the grammar, with exactly its own messages. */
  lemma ReadTurn(env: Env, t: Turn, n: nat, ended: seq<Message>)
    requires ValidTurn(env, t)
    ensures ReadAll(AfterTurns(n, ended), TurnEvents(t)) == AfterTurns(n + 1, ended + TurnMessages(t))
  {
    hide ValidTurn, ReadAll, TurnHead, BatchEvents, Closes, Results, TurnMessages;
    var turn := ReadBody(env, t, n, ended);
    ReadSnoc(AfterTurns(n, ended), TurnHead(t) + BatchEvents(t.batch), TurnEnd(t.message, Results(t.batch.outs)));
  }

  lemma {:induction false} ReadRun(env: Env, start: seq<Message>, tools: seq<Tool>, log: seq<Turn>)
    requires Run(env, start, tools, log)
    ensures ReadAll(AfterTurns(0, []), Render(log)) == AfterTurns(|log|, Delivered(log))
  {
    if log != [] {
      var n := |log| - 1;
      PrefixRun(env, start, tools, log, n);
      assert Follows(env, start, tools, log[..n], log[n]);
      ReadRun(env, start, tools, log[..n]);
      ReadTurn(env, log[n], n, Delivered(log[..n]));
      ReadAppend(AfterTurns(0, []), Render(log[..n]), TurnEvents(log[n]));
    }
  }

  /** Every complete run obeys the grammar: one or more turns that neither overlap nor nest, each with
      exactly one response, tools only after the response, `turn_end` with the response and the results of
      that turn, and one final `agent_end` with all completed messages. */
  lemma GrammarOfARun(env: Env, start: seq<Message>, tools: seq<Tool>, log: seq<Turn>)
    requires Run(env, start, tools, log) && log != []
    ensures ReadAll(Expecting, Trace(log)) == Finished
  {
    ReadRun(env, start, tools, log);
    assert [] + [AgentStart] == [AgentStart];
    ReadSnoc(Expecting, [], AgentStart);
    ReadAppend(Expecting, [AgentStart], Render(log));
    ReadSnoc(Expecting, [AgentStart] + Render(log), AgentEnd(Delivered(log)));
  }

  /** The nesting of events is right at every moment of a run. */
  lemma NestedThroughout(env: Env, start: seq<Message>, tools: seq<Tool>, log: seq<Turn>, k: nat)
    requires Run(env, start, tools, log) && log != [] && k <= |Trace(log)|
    ensures Scan(Before, Trace(log)[..k]) != Broken
    ensures Scan(Before, Trace(log)) == After
  {
    hide Run, Trace;
    GrammarOfARun(env, start, tools, log);
    NeverWrong(Trace(log), k);
    NeverWrong(Trace(log), |Trace(log)|);
    assert Trace(log)[..|Trace(log)|] == Trace(log);
  }
}
