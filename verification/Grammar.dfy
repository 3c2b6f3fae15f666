/** The grammar of a run, as an automaton over its events that knows nothing about the loop.

    A run is `agent_start`, one or more turns, and `agent_end` with all completed messages. A turn starts with
    `turn_start` and plain messages, then has exactly one response, which may be streamed; tools run and
    results follow only after the response; `turn_end` names the response and the results. */
module Grammar {
  import opened Messages
  import opened Events

  /** What a turn has shown so far: its completed messages, which of them was streamed, and how many there
      were when the first tool event came. */
  datatype TurnSoFar = TurnSoFar(own: seq<Message>, streamed: Option<nat>, tools: Option<nat>)

  const NEW_TURN := TurnSoFar([], None, None)

  datatype Reader =
    | Expecting
    | AfterTurns(turns: nat, ended: seq<Message>)
    | InTurnAfter(turns: nat, ended: seq<Message>, turn: TurnSoFar)
    | InMessageAfter(turns: nat, ended: seq<Message>, turn: TurnSoFar, first: Message, updated: bool)
    | Finished
    | Wrong

  /** A message is complete. One that was updated, or ends differently than it started, was streamed. */
  function Completed(turn: TurnSoFar, first: Message, updated: bool, m: Message): Option<TurnSoFar> {
    var own := turn.own + [m];
    if !updated && m == first then Some(turn.(own := own))
    else if turn.streamed.None? then Some(turn.(own := own, streamed := Some(|turn.own|)))
    else None
  }

  /** The turn may end with this response and these results: they are its last messages, nothing else was
      streamed, and the tools ran between the response and the first result. */
  predicate Closes(turn: TurnSoFar, response: Message, results: seq<Message>) {
    && |results| < |turn.own| && response.Assistant?
    && var r := |turn.own| - |results| - 1;
    && turn.own[r] == response && turn.own[r + 1..] == results
    && (turn.streamed.Some? ==> turn.streamed == Some(r))
    && (if results == [] then turn.tools.None? else turn.tools == Some(r + 1))
  }

  function Read(s: Reader, e: Event): Reader {
    match e
    case AgentStart => if s.Expecting? then AfterTurns(0, []) else Wrong
    case TurnStart => if s.AfterTurns? then InTurnAfter(s.turns, s.ended, NEW_TURN) else Wrong
    case MessageStart(m) =>
      if s.InTurnAfter? then InMessageAfter(s.turns, s.ended, s.turn, m, false) else Wrong
    case MessageUpdate(_) =>
      if s.InMessageAfter? then InMessageAfter(s.turns, s.ended, s.turn, s.first, true) else Wrong
    case MessageEnd(m) =>
      if !s.InMessageAfter? then Wrong
      else (
        match Completed(s.turn, s.first, s.updated, m)
        case None => Wrong
        case Some(turn) => InTurnAfter(s.turns, s.ended, turn))
    case TurnEnd(m, results) =>
      if s.InTurnAfter? && Closes(s.turn, m, results) then AfterTurns(s.turns + 1, s.ended + s.turn.own) else Wrong
    case AgentEnd(ms) => if s.AfterTurns? && s.turns > 0 && ms == s.ended then Finished else Wrong
    case _ =>
      if !s.InTurnAfter? then Wrong
      else if s.turn.tools.Some? then s
      else InTurnAfter(s.turns, s.ended, s.turn.(tools := Some(|s.turn.own|)))
  }

  function ReadAll(s: Reader, es: seq<Event>): Reader {
    if es == [] then s else Read(ReadAll(s, es[..|es| - 1]), es[|es| - 1])
  }

  lemma ReadSnoc(s: Reader, es: seq<Event>, e: Event)
    ensures ReadAll(s, es + [e]) == Read(ReadAll(s, es), e)
  {
    assert (es + [e])[..|es|] == es;
  }

  lemma {:induction false} ReadAppend(s: Reader, a: seq<Event>, b: seq<Event>)
    ensures ReadAll(s, a + b) == ReadAll(ReadAll(s, a), b)
  {
    if b == [] {
      assert a + b == a;
    } else {
      var front, last := b[..|b| - 1], b[|b| - 1];
      ReadAppend(s, a, front);
      assert a + b == (a + front) + [last];
      ReadSnoc(s, a + front, last);
    }
  }

  lemma ReadTwo(s: Reader, a: seq<Event>, s1: Reader, b: seq<Event>, s2: Reader)
    requires ReadAll(s, a) == s1 && ReadAll(s1, b) == s2
    ensures ReadAll(s, a + b) == s2
  {
    ReadAppend(s, a, b);
  }

  lemma {:induction false} WrongStaysWrong(es: seq<Event>)
    ensures ReadAll(Wrong, es) == Wrong
  {
    if es != [] { WrongStaysWrong(es[..|es| - 1]); }
  }

  // ---- Brackets ----

  /** What is left of the grammar when only the nesting of events is looked at. */
  function Shape(s: Reader): Phase {
    match s
    case Expecting => Before
    case AfterTurns(_, _) => Between
    case InTurnAfter(_, _, _) => InTurn
    case InMessageAfter(_, _, _, _, _) => InMessage
    case Finished => After
    case Wrong => Broken
  }

  lemma OnlyWrongIsWrong(e: Event)
    ensures Read(Wrong, e) == Wrong
  {
  }

  lemma ShapeOfStep(s: Reader, e: Event)
    requires Read(s, e) != Wrong
    ensures Step(Shape(s), e) == Shape(Read(s, e))
  {
  }

  /** A trace that obeys the grammar is properly nested. */
  lemma {:induction false} ShapeOfTrace(s: Reader, es: seq<Event>)
    requires ReadAll(s, es) != Wrong
    ensures Scan(Shape(s), es) == Shape(ReadAll(s, es))
  {
    if es != [] {
      var front, e := es[..|es| - 1], es[|es| - 1];
      assert es == front + [e];
      ReadSnoc(s, front, e);
      ScanSnoc(Shape(s), front, e);
      hide ReadAll, Scan, Read, Step, Shape;
      OnlyWrongIsWrong(e);
      ShapeOfTrace(s, front);
      ShapeOfStep(ReadAll(s, front), e);
    }
  }

  lemma OnlyTurnStart(s: Reader, e: Event, n: nat)
    ensures Read(s, e) == InTurnAfter(n, [], NEW_TURN) <==> s == AfterTurns(n, []) && e == TurnStart
  {
  }

  lemma OnlyAgentStart(s: Reader, e: Event, n: nat)
    ensures Read(s, e) == AfterTurns(n, []) <==> s == Expecting && e == AgentStart && n == 0
    ensures Read(s, e) != Expecting
  {
  }

  lemma NothingRead(es: seq<Event>)
    ensures ReadAll(Expecting, es) == Expecting <==> es == []
  {
    hide Read;
    if es != [] { OnlyAgentStart(ReadAll(Expecting, es[..|es| - 1]), es[|es| - 1], 0); }
  }

  lemma NoTurnYet(es: seq<Event>, n: nat)
    ensures ReadAll(Expecting, es) == AfterTurns(n, []) <==> n == 0 && es == [AgentStart]
  {
    hide Read;
    if es != [] {
      var front, e := es[..|es| - 1], es[|es| - 1];
      assert es == front + [e];
      OnlyAgentStart(ReadAll(Expecting, front), e, n);
      NothingRead(front);
    }
  }

  /** Only the very first events of a run leave a turn open with no message and no tool event before it. */
  lemma OnlyTheFirstTurnStart(es: seq<Event>, n: nat)
    ensures ReadAll(Expecting, es) == InTurnAfter(n, [], NEW_TURN) <==> n == 0 && es == [AgentStart, TurnStart]
  {
    hide Read;
    if es != [] {
      var front, e := es[..|es| - 1], es[|es| - 1];
      assert es == front + [e] && [AgentStart] + [TurnStart] == [AgentStart, TurnStart];
      OnlyTurnStart(ReadAll(Expecting, front), e, n);
      NoTurnYet(front, n);
    }
  }

  /** The streamed message of an open turn is one of its completed messages. */
  predicate StreamedIn(s: Reader) {
    (s.InTurnAfter? || s.InMessageAfter?) && s.turn.streamed.Some? ==> s.turn.streamed.value < |s.turn.own|
  }

  lemma StepKeepsStreamed(s: Reader, e: Event)
    requires StreamedIn(s)
    ensures StreamedIn(Read(s, e))
  {
  }

  lemma {:induction false} StreamedIsCompleted(es: seq<Event>)
    ensures StreamedIn(ReadAll(Expecting, es))
  {
    if es != [] {
      hide Read, StreamedIn;
      StreamedIsCompleted(es[..|es| - 1]);
      StepKeepsStreamed(ReadAll(Expecting, es[..|es| - 1]), es[|es| - 1]);
    }
  }

  // ---- The parts of a turn ----

  lemma {:induction false} ReadPairs(n: nat, ended: seq<Message>, turn: TurnSoFar, ms: seq<Message>)
    ensures ReadAll(InTurnAfter(n, ended, turn), Pairs(ms)) == InTurnAfter(n, ended, turn.(own := turn.own + ms))
  {
    var s := InTurnAfter(n, ended, turn);
    if ms == [] {
      assert turn.own + ms == turn.own;
    } else {
      var front, m := ms[..|ms| - 1], ms[|ms| - 1];
      hide ReadAll, Pairs;
      ReadPairs(n, ended, turn, front);
      assert ms == front + [m];
      PairsSnoc(front, m);
      Assoc(Pairs(front), [MessageStart(m)], [MessageEnd(m)]);
      assert [MessageStart(m)] + [MessageEnd(m)] == [MessageStart(m), MessageEnd(m)];
      ReadSnoc(s, Pairs(front), MessageStart(m));
      ReadSnoc(s, Pairs(front) + [MessageStart(m)], MessageEnd(m));
      assert turn.own + front + [m] == turn.own + ms;
    }
  }

  function ToolsSeen(turn: TurnSoFar): TurnSoFar {
    if turn.tools.Some? then turn else turn.(tools := Some(|turn.own|))
  }

  lemma ReadTool(n: nat, ended: seq<Message>, turn: TurnSoFar, e: Event)
    requires IsToolEvent(e)
    ensures Read(InTurnAfter(n, ended, turn), e) == InTurnAfter(n, ended, ToolsSeen(turn))
  {
  }

  lemma {:induction false} ReadTools(n: nat, ended: seq<Message>, turn: TurnSoFar, es: seq<Event>)
    requires forall i :: 0 <= i < |es| ==> IsToolEvent(es[i])
    ensures ReadAll(InTurnAfter(n, ended, turn), es) ==
            InTurnAfter(n, ended, if es == [] then turn else ToolsSeen(turn))
  {
    if es != [] {
      var front, e := es[..|es| - 1], es[|es| - 1];
      assert IsToolEvent(e);
      hide Read, IsToolEvent;
      ReadTools(n, ended, turn, front);
      ReadTool(n, ended, if front == [] then turn else ToolsSeen(turn), e);
    }
  }

  lemma {:induction false} ReadStreamPrefix(n: nat, ended: seq<Message>, turn: TurnSoFar, es: seq<Event>,
      final: Message, k: nat)
    requires StreamBlock(es, final) && 1 <= k < |es|
    ensures ReadAll(InTurnAfter(n, ended, turn), es[..k]) ==
            InMessageAfter(n, ended, turn, es[0].message, k > 1)
    decreases k
  {
    assert es[..k] == es[..k - 1] + [es[k - 1]];
    ReadSnoc(InTurnAfter(n, ended, turn), es[..k - 1], es[k - 1]);
    if k > 1 {
      ReadStreamPrefix(n, ended, turn, es, final, k - 1);
    } else {
      assert es[..0] == [];
    }
  }

  lemma ReadStream(n: nat, ended: seq<Message>, turn: TurnSoFar, es: seq<Event>, final: Message)
    requires StreamBlock(es, final) && turn.streamed.None?
    ensures var s := ReadAll(InTurnAfter(n, ended, turn), es);
      && s.InTurnAfter? && s.turns == n && s.ended == ended
      && s.turn.own == turn.own + [final] && s.turn.tools == turn.tools
      && (s.turn.streamed.Some? ==> s.turn.streamed == Some(|turn.own|))
  {
    var k := |es| - 1;
    ReadStreamPrefix(n, ended, turn, es, final, k);
    assert es == es[..k] + [es[k]];
    ReadSnoc(InTurnAfter(n, ended, turn), es[..k], es[k]);
  }

  lemma ClosesTurn(turn: TurnSoFar, injected: seq<Message>, response: Message, results: seq<Message>)
    requires turn.own == injected + [response] + results && response.Assistant?
    requires turn.streamed.Some? ==> turn.streamed == Some(|injected|)
    requires if results == [] then turn.tools.None? else turn.tools == Some(|injected| + 1)
    ensures Closes(turn, response, results)
  {
    assert turn.own[|injected|] == response && turn.own[|injected| + 1..] == results;
  }

  /** A trace that becomes a run was never wrong, and was properly nested at every moment. */
  lemma NeverWrong(es: seq<Event>, k: nat)
    requires ReadAll(Expecting, es) == Finished && k <= |es|
    ensures ReadAll(Expecting, es[..k]) != Wrong
    ensures Scan(Before, es[..k]) == Shape(ReadAll(Expecting, es[..k])) != Broken
  {
    hide ReadAll, Scan;
    assert es == es[..k] + es[k..];
    ReadAppend(Expecting, es[..k], es[k..]);
    WrongStaysWrong(es[k..]);
    ShapeOfTrace(Expecting, es[..k]);
  }
}
