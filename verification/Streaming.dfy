/** Streaming one assistant response into the context. */
module Streaming {
  import opened Messages
  import opened Oracles
  import opened Events
  import opened Runtime

  /** The position of the first terminal event, or the length of a stream without one. */
  function StopAt(events: seq<StreamEvent>, from: nat := 0): (n: nat)
    requires from <= |events|
    ensures from <= n <= |events|
    ensures forall i :: from <= i < n ==> !events[i].Terminal?
    ensures n < |events| ==> events[n].Terminal?
    decreases |events| - from
  {
    if from == |events| || events[from].Terminal? then from else StopAt(events, from + 1)
  }

  /** The events shown for the first n stream events; updates before the start are not shown. */
  function Shown(events: seq<StreamEvent>, n: nat): seq<Event>
    requires n <= |events|
  {
    if n == 0 then []
    else
      var es := Shown(events, n - 1);
      match events[n - 1]
      case Start(p) => es + [MessageStart(p)]
      case Update(p) => if es != [] then es + [MessageUpdate(p)] else es
      case Terminal => es
  }

  /** What the loop shows of a whole response: nothing after the first terminal event is looked at. */
  function StreamEvents(r: RawResponse): seq<Event> {
    var es := Shown(r.events, StopAt(r.events));
    (if es == [] then [MessageStart(r.final)] else es) + [MessageEnd(r.final)]
  }

  lemma {:induction false} ShownIsAStartWithUpdates(events: seq<StreamEvent>, n: nat)
    requires AtMostOneStart(events) && n <= |events|
    ensures var es := Shown(events, n);
      es != [] ==>
        && es[0].MessageStart? && (forall i :: 0 < i < |es| ==> es[i].MessageUpdate?)
        && exists i :: 0 <= i < n && events[i].Start?
  {
    if n > 0 {
      ShownIsAStartWithUpdates(events, n - 1);
      if events[n - 1].Start? {
        assert Shown(events, n - 1) == [];
      }
    }
  }

  /** Every stream that keeps the contract shows up as exactly one message. */
  lemma EveryStreamIsOneMessage(r: RawResponse)
    requires AtMostOneStart(r.events)
    ensures StreamBlock(StreamEvents(r), r.final)
  {
    ShownIsAStartWithUpdates(r.events, StopAt(r.events));
  }

  // ---- What is shown of a response ----

  /** Position n is the first terminal event, or the end of a stream without one. */
  predicate StopsAt(events: seq<StreamEvent>, n: nat) {
    && n <= |events|
    && (forall i :: 0 <= i < n ==> !events[i].Terminal?)
    && (n < |events| ==> events[n].Terminal?)
  }

  /** The positions of all updates between the start at s and the stop at n, in order. */
  predicate UpdatesBetween(events: seq<StreamEvent>, s: nat, n: nat, at: seq<nat>)
    requires n <= |events|
  {
    && (forall i, j :: 0 <= i < j < |at| ==> at[i] < at[j])
    && (forall i :: 0 <= i < |at| ==> s < at[i] < n && events[at[i]].Update?)
    && (forall p: nat :: s < p < n && events[p].Update? ==> p in at)
  }

  /** The events show the partial messages at these positions. */
  predicate ShowsUpdates(events: seq<StreamEvent>, at: seq<nat>, es: seq<Event>) {
    && |es| == |at|
    && forall i :: 0 <= i < |at| ==>
         at[i] < |events| && events[at[i]].Update? && es[i] == MessageUpdate(events[at[i]].partial)
  }

  /** One `message_start` for the start and one `message_update` for every update after it, in order. */
  predicate StartAndUpdates(events: seq<StreamEvent>, s: nat, n: nat, at: seq<nat>, es: seq<Event>)
    requires n <= |events|
  {
    && s < n && events[s].Start? && UpdatesBetween(events, s, n, at)
    && es != [] && es[0] == MessageStart(events[s].partial) && ShowsUpdates(events, at, es[1..])
  }

  /** The start with all later updates, or the final message as start if there is no start. */
  ghost predicate ShowsUntil(events: seq<StreamEvent>, n: nat, final: Message, es: seq<Event>)
    requires n <= |events|
  {
    if forall i :: 0 <= i < n ==> !events[i].Start? then es == [MessageStart(final)]
    else exists s: nat, at :: StartAndUpdates(events, s, n, at, es)
  }

  /** What a response must show: everything up to where its stream stops, and then the final message. */
  ghost predicate ShowsResponse(r: RawResponse, es: seq<Event>) {
    && es != [] && es[|es| - 1] == MessageEnd(r.final)
    && exists n :: StopsAt(r.events, n) && ShowsUntil(r.events, n, r.final, es[..|es| - 1])
  }

  lemma {:induction false} NothingBeforeTheStart(events: seq<StreamEvent>, n: nat)
    requires n <= |events| && forall i :: 0 <= i < n ==> !events[i].Start?
    ensures Shown(events, n) == []
  {
    if n > 0 { NothingBeforeTheStart(events, n - 1); }
  }

  lemma OneMoreUpdate(events: seq<StreamEvent>, s: nat, n: nat, at: seq<nat>)
    requires s + 1 < n <= |events| && UpdatesBetween(events, s, n - 1, at)
    ensures UpdatesBetween(events, s, n, if events[n - 1].Update? then at + [n - 1] else at)
  {
    var more := at + [n - 1];
    assert more[|at|] == n - 1;
    forall p: nat | p in at ensures p in more {}
  }

  lemma ShowsUpdatesSnoc(events: seq<StreamEvent>, at: seq<nat>, es: seq<Event>, p: nat)
    requires ShowsUpdates(events, at, es) && p < |events| && events[p].Update?
    ensures ShowsUpdates(events, at + [p], es + [MessageUpdate(events[p].partial)])
  {
  }

  lemma ShowsOneMore(events: seq<StreamEvent>, s: nat, n: nat, at: seq<nat>, es: seq<Event>)
    requires s + 1 < n <= |events| && StartAndUpdates(events, s, n - 1, at, es)
    ensures if events[n - 1].Update?
            then StartAndUpdates(events, s, n, at + [n - 1], es + [MessageUpdate(events[n - 1].partial)])
            else StartAndUpdates(events, s, n, at, es)
  {
    hide UpdatesBetween, ShowsUpdates;
    OneMoreUpdate(events, s, n, at);
    if events[n - 1].Update? {
      var e := MessageUpdate(events[n - 1].partial);
      ShowsUpdatesSnoc(events, at, es[1..], n - 1);
      assert (es + [e])[1..] == es[1..] + [e];
    }
  }

  lemma JustStarted(events: seq<StreamEvent>, s: nat)
    requires s < |events| && events[s].Start?
    ensures StartAndUpdates(events, s, s + 1, [], [MessageStart(events[s].partial)])
  {
  }

  lemma ShownAtTheStart(events: seq<StreamEvent>, s: nat)
    requires AtMostOneStart(events) && s < |events| && events[s].Start?
    ensures Shown(events, s + 1) == [MessageStart(events[s].partial)]
  {
    NothingBeforeTheStart(events, s);
    assert [] + [MessageStart(events[s].partial)] == [MessageStart(events[s].partial)];
  }

  lemma ShownAfterTheStart(events: seq<StreamEvent>, s: nat, n: nat)
    requires AtMostOneStart(events) && s + 1 < n <= |events| && events[s].Start? && Shown(events, n - 1) != []
    ensures Shown(events, n) == Shown(events, n - 1) +
      (if events[n - 1].Update? then [MessageUpdate(events[n - 1].partial)] else [])
  {
    assert !events[n - 1].Start?;
    hide AtMostOneStart;
    assert Shown(events, n - 1) + [] == Shown(events, n - 1);
  }

  lemma {:induction false} AllUpdatesAreShown(events: seq<StreamEvent>, s: nat, n: nat) returns (at: seq<nat>)
    requires AtMostOneStart(events) && s < n <= |events| && events[s].Start?
    ensures StartAndUpdates(events, s, n, at, Shown(events, n)) && Shown(events, n) != []
    decreases n
  {
    hide *;
    if n == s + 1 {
      ShownAtTheStart(events, s);
      JustStarted(events, s);
      at := [];
    } else {
      at := AllUpdatesAreShown(events, s, n - 1);
      ShownAfterTheStart(events, s, n);
      ShowsOneMore(events, s, n, at, Shown(events, n - 1));
      if events[n - 1].Update? {
        at := at + [n - 1];
      } else {
        assert Shown(events, n - 1) + [] == Shown(events, n - 1);
      }
    }
  }

  /** Nothing of a response is dropped: every update from the start to the stop is shown. */
  lemma EveryUpdateIsShown(r: RawResponse)
    requires AtMostOneStart(r.events)
    ensures ShowsResponse(r, StreamEvents(r))
  {
    var n, es := StopAt(r.events), StreamEvents(r);
    assert StopsAt(r.events, n);
    if forall i :: 0 <= i < n ==> !r.events[i].Start? {
      NothingBeforeTheStart(r.events, n);
      assert es == [MessageStart(r.final)] + [MessageEnd(r.final)];
    } else {
      var s: nat :| s < n && r.events[s].Start?;
      var at := AllUpdatesAreShown(r.events, s, n);
      assert es[..|es| - 1] == Shown(r.events, n);
    }
  }

  /** Snapshot k shows the context as `before` followed by the message that event k carries. */
  ghost predicate AppendsAtEveryStep(shots: seq<seq<Message>>, es: seq<Event>, before: seq<Message>) {
    && |shots| == |es|
    && forall k :: 0 <= k < |es| ==> HasMessage(es[k]) && shots[k] == before + [es[k].message]
  }

  ghost function LastMessage(es: seq<Event>): Message {
    if es != [] && HasMessage(es[|es| - 1]) then es[|es| - 1].message else User("")
  }

  /** Emits one message event for a context that already holds the message, and records the context. */
  method Present(agent: Agent, context: MessageArray, e: Event,
      ghost before: seq<Message>, ghost es0: seq<Event>, ghost shots0: seq<seq<Message>>)
    returns (ghost es: seq<Event>, ghost shots: seq<seq<Message>>)
    requires agent.Valid() && agent.activeRun && context != agent.transcript
    requires HasMessage(e) && context.items == before + [e.message]
    requires AppendsAtEveryStep(shots0, es0, before)
    modifies agent, agent.transcript, agent.steering, agent.followUp
    ensures agent.Emitted([e])
    ensures es == es0 + [e] && AppendsAtEveryStep(shots, es, before)
  {
    es, shots := es0 + [e], shots0 + [context.items];
    agent.ProcessEvents(e);
  }

  /** Streams one response. `shots` records the context at every emitted event: it is the old context
      followed by the one message that the event shows, so the old prefix is never touched. */
  method StreamAssistantResponse(agent: Agent, context: MessageArray)
    returns (final: AssistantMessage, ghost es: seq<Event>, ghost shots: seq<seq<Message>>, ghost asked: nat)
    requires agent.Valid() && agent.activeRun && context != agent.transcript
    modifies agent, agent.transcript, agent.steering, agent.followUp, context
    ensures agent.Emitted(es)
    ensures final == agent.env.respond(asked, old(context.items)).final
    ensures es == StreamEvents(agent.env.respond(asked, old(context.items)))
    ensures StreamBlock(es, final) && ShowsResponse(agent.env.respond(asked, old(context.items)), es)
    ensures context.items == old(context.items) + [final]
    ensures AppendsAtEveryStep(shots, es, old(context.items))
  {
    hide Shown, StopAt, StreamBlock, AppendsAtEveryStep, ShowsResponse, Agent.Valid;
    ghost var before := context.items;
    agent.Await();
    asked := agent.clock;
    var response: Response := agent.env.respond(agent.clock, context.items);
    EveryStreamIsOneMessage(response);
    EveryUpdateIsShown(response);
    final := response.final;
    var addedPartial;
    addedPartial, es, shots := ConsumeStream(agent, context, response.events);
    if addedPartial {
      context.SetLast(final);
    } else {
      context.Push(final);
      es, shots := Present(agent, context, MessageStart(final), before, es, shots);
    }
    Assoc(old(agent.trace), es, [MessageEnd(final)]);
    es, shots := Present(agent, context, MessageEnd(final), before, es, shots);
  }

  /** The loop over the stream up to its first terminal event. */
  method ConsumeStream(agent: Agent, context: MessageArray, events: seq<StreamEvent>)
    returns (addedPartial: bool, ghost es: seq<Event>, ghost shots: seq<seq<Message>>)
    requires AtMostOneStart(events)
    requires agent.Valid() && agent.activeRun && context != agent.transcript
    modifies agent, agent.transcript, agent.steering, agent.followUp, context
    ensures agent.Emitted(es)
    ensures es == Shown(events, StopAt(events)) && addedPartial == (es != [])
    ensures context.items == if addedPartial then old(context.items) + [LastMessage(es)] else old(context.items)
    ensures AppendsAtEveryStep(shots, es, old(context.items))
  {
    hide Agent.Valid;
    ghost var before := context.items;
    addedPartial := false;
    es, shots := [], [];
    var i := 0;
    while i < |events|
      invariant 0 <= i <= StopAt(events)
      invariant agent.Emitted(es)
      invariant es == Shown(events, i) && addedPartial == (es != [])
      invariant AppendsAtEveryStep(shots, es, before)
      invariant context.items == if addedPartial then before + [LastMessage(es)] else before
    {
      match events[i] {
        case Start(partial) =>
          ShownIsAStartWithUpdates(events, i);
          context.Push(partial);
          addedPartial := true;
          Assoc(old(agent.trace), es, [MessageStart(partial)]);
          es, shots := Present(agent, context, MessageStart(partial), before, es, shots);
        case Update(partial) =>
          if addedPartial {
            context.SetLast(partial);
            Assoc(old(agent.trace), es, [MessageUpdate(partial)]);
            es, shots := Present(agent, context, MessageUpdate(partial), before, es, shots);
          }
        case Terminal =>
          break;
      }
      i := i + 1;
    }
  }
}
