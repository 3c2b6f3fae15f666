/** The lifecycle of an agent under arbitrary interleavings of its callers, of the running loop and of
    listeners that may throw. A run is a frame that executes, possibly fails, and is always finished. */
module Lifecycle {
  import opened Messages
  import opened MessageQueue
  import opened Oracles
  import opened Events
  import opened Grammar
  import opened RunLog
  import opened RunGrammar
  import Runtime

  /** A call of `runWithLifecycle` in progress, with its own abort signal. `pending` is what it has drained
      from the queues and not yet completed. */
  datatype Frame =
    | Executing(aborted: bool, pending: seq<Message>)
    | Failing(aborted: bool, failure: Message, next: nat)

  /** The agent, and what its runs have drained from the queues and what of it their failures have lost. */
  datatype State = State(
    view: View,
    isStreaming: bool,
    activeRun: Option<nat>,
    steering: Waiting,
    followUps: Waiting,
    frames: map<nat, Frame>,
    nextId: nat,
    trace: seq<Event>,
    drained: seq<Message>,
    lost: seq<Message>)

  /** Everything that can happen between two awaits. Moves of a run that is not at that point have
      no effect. `thrown` is the error of a listener. */
  datatype Move =
    | Prompt
    | Continue
    | Outside(a: Action)
    | Emit(id: nat, e: Event, thrown: Option<string>)
    | PollSteering(id: nat)
    | PollFollowUps(id: nat)
    | Return(id: nat)
    | Throw(id: nat, error: string)
    | EmitFailure(id: nat, thrown: Option<string>)

  const OUTSIDE_RUN := "Agent listener invoked outside active run"

  function FailureMessage(error: string, aborted: bool): AssistantMessage {
    Assistant([Text("")], if aborted then Aborted else Error, Some(error))
  }

  /** What `handleRunFailure` emits. */
  function FailureEvents(m: Message): (es: seq<Event>)
    ensures |es| == 4
  {
    [MessageStart(m), MessageEnd(m), TurnEnd(m, []), AgentEnd([m])]
  }

  function Start(s: State, pending: seq<Message>): State {
    s.(activeRun := Some(s.nextId), isStreaming := true,
       view := s.view.(streaming := None, errorMessage := None),
       frames := s.frames[s.nextId := Executing(false, pending)], nextId := s.nextId + 1, trace := [],
       drained := s.drained + pending)
  }

  /** `finishRun`, in the `finally` branch of the frame. */
  function Finish(s: State, id: nat): State {
    s.(isStreaming := false, activeRun := None,
       view := s.view.(streaming := None, pending := {}), frames := s.frames - {id})
  }

  /** The synchronous part of `processEvents`. */
  function Process(s: State, e: Event): State {
    s.(view := Reduce(s.view, e), trace := s.trace + [e])
  }

  /** The drained messages that a run still has to complete after an event. */
  function Shown(pending: seq<Message>, e: Event): seq<Message> {
    if e.MessageEnd? && pending != [] && pending[0] == e.message then pending[1..] else pending
  }

  /** An executing run processes one of its events. */
  function Advance(s: State, id: nat, e: Event): State
    requires IsExecuting(s, id)
  {
    var f := s.frames[id];
    Process(s, e).(frames := s.frames[id := f.(pending := Shown(f.pending, e))])
  }

  /** The error of processing an event, if any. */
  function ErrorOf(s: State, thrown: Option<string>): Option<string> {
    if s.activeRun.None? then Some(OUTSIDE_RUN) else thrown
  }

  /** The executor of a run throws: what it had drained and not completed is gone with it. */
  function Fail(s: State, id: nat, error: string): State
    requires IsExecuting(s, id)
  {
    var f := s.frames[id];
    s.(frames := s.frames[id := Failing(f.aborted, FailureMessage(error, f.aborted), 0)], lost := s.lost + f.pending)
  }

  predicate IsExecuting(s: State, id: nat) {
    id in s.frames && s.frames[id].Executing?
  }

  /** What a drain leaves of a queue. */
  function Drained(w: Waiting): Waiting {
    Waiting(w.messages[|TakenFrom(w)|..], w.mode)
  }

  /** A run has drained some messages. */
  function Hold(s: State, id: nat, taken: seq<Message>): State
    requires IsExecuting(s, id)
  {
    var f := s.frames[id];
    s.(frames := s.frames[id := f.(pending := f.pending + taken)], drained := s.drained + taken)
  }

  function Next(s: State, m: Move): State {
    match m
    case Prompt => if s.activeRun.Some? then s else Start(s, [])
    case Continue =>
      if s.activeRun.Some? then s
      else (
        var items := s.view.messages;
        if items == [] then s
        else if !items[|items| - 1].Assistant? then Start(s, [])
        else if s.steering.messages != [] then
          Start(s.(steering := Drained(s.steering)), TakenFrom(s.steering))
        else if s.followUps.messages != [] then
          Start(s.(followUps := Drained(s.followUps)), TakenFrom(s.followUps))
        else s)
    case Outside(a) =>
      var s' := s.(steering := AfterAction(Steering, s.steering, a),
                   followUps := AfterAction(FollowUps, s.followUps, a));
      if a.Abort? && s.activeRun.Some? && s.activeRun.value in s.frames
      then s'.(frames := s.frames[s.activeRun.value := s.frames[s.activeRun.value].(aborted := true)])
      else s'
    case Emit(id, e, thrown) =>
      if !IsExecuting(s, id) then s
      else (
        match ErrorOf(s, thrown)
        case None => Advance(s, id, e)
        case Some(error) => Fail(Advance(s, id, e), id, error))
    case PollSteering(id) =>
      if IsExecuting(s, id) then Hold(s.(steering := Drained(s.steering)), id, TakenFrom(s.steering)) else s
    case PollFollowUps(id) =>
      if IsExecuting(s, id) then Hold(s.(followUps := Drained(s.followUps)), id, TakenFrom(s.followUps)) else s
    case Return(id) =>
      if IsExecuting(s, id) then Finish(s.(lost := s.lost + s.frames[id].pending), id) else s
    case Throw(id, error) => if IsExecuting(s, id) then Fail(s, id, error) else s
    case EmitFailure(id, thrown) =>
      if id !in s.frames || !s.frames[id].Failing? || s.frames[id].next >= 4 then s
      else
        var f := s.frames[id];
        var s' := Process(s, FailureEvents(f.failure)[f.next]);
        if ErrorOf(s, thrown).Some? || f.next == 3 then Finish(s', id)
        else s'.(frames := s.frames[id := f.(next := f.next + 1)])
  }

  function RunAll(s: State, moves: seq<Move>): State {
    if moves == [] then s else Next(RunAll(s, moves[..|moves| - 1]), moves[|moves| - 1])
  }

  /** At most one run exists, it is the active one, and `isStreaming` holds exactly while it does; an
      agent without a run has no streaming message and no pending call. */
  ghost predicate Inv(s: State) {
    && (s.activeRun.None? ==> s.frames == map[] && s.view.streaming == None && s.view.pending == {})
    && (s.activeRun.Some? ==> s.frames.Keys == {s.activeRun.value} && s.activeRun.value < s.nextId)
    && s.isStreaming == s.activeRun.Some?
    && forall id :: id in s.frames && s.frames[id].Failing? ==> s.frames[id].next < 4
  }

  predicate IsIdle(s: State) {
    s.activeRun.None? && !s.isStreaming && s.frames == map[] && s.view.streaming == None && s.view.pending == {}
  }

  /** Every move keeps the invariant. */
  lemma NextKeepsInv(s: State, a: Move)
    requires Inv(s)
    ensures Inv(Next(s, a))
  {
    var s' := Next(s, a);
    if s.activeRun.Some? {
      var id := s.activeRun.value;
      assert id in s.frames;
      assert s.frames.Keys - {id} == {};
      assert s'.activeRun.None? ==> s'.frames.Keys == {};
    } else {
      assert s'.activeRun.Some? ==> s'.frames.Keys == {s.nextId};
    }
  }

  /** Whatever callers, loop and listeners do, in whatever order. */
  lemma {:induction false} EveryReachableStateIsSafe(s: State, moves: seq<Move>)
    requires Inv(s)
    ensures Inv(RunAll(s, moves))
    ensures |RunAll(s, moves).frames| <= 1
  {
    if moves != [] {
      EveryReachableStateIsSafe(s, moves[..|moves| - 1]);
      NextKeepsInv(RunAll(s, moves[..|moves| - 1]), moves[|moves| - 1]);
    }
    var r := RunAll(s, moves);
    if r.activeRun.Some? {
      assert |r.frames.Keys| == |{r.activeRun.value}| == 1;
    }
  }

  /** What the active run has drained and not completed. */
  function InFlight(s: State): seq<Message> {
    if s.activeRun.Some? && IsExecuting(s, s.activeRun.value) then s.frames[s.activeRun.value].pending else []
  }

  /** Every drained message is in the transcript, in flight, or lost by a failed run. */
  ghost predicate Accounted(s: State) {
    multiset(s.drained) <= multiset(s.view.messages) + multiset(s.lost) + multiset(InFlight(s))
  }

  lemma OnlyTheActiveRun(s: State, id: nat)
    requires Inv(s) && id in s.frames
    ensures s.activeRun == Some(id)
  {
    assert id in s.frames.Keys;
  }

  lemma StartAccounts(s: State, pending: seq<Message>)
    requires Inv(s) && s.activeRun.None? && Accounted(s)
    ensures Accounted(Start(s, pending))
  {
  }

  lemma TakeHead(m: Message, rest: seq<Message>, messages: seq<Message>)
    ensures multiset([m] + rest) == multiset{m} + multiset(rest)
    ensures multiset(messages + [m]) == multiset(messages) + multiset{m}
  {
  }

  lemma ShownIsEnded(v: View, pending: seq<Message>, e: Event)
    ensures multiset(v.messages) + multiset(pending) <=
            multiset(Reduce(v, e).messages) + multiset(Shown(pending, e))
  {
    if e.MessageEnd? {
      assert Reduce(v, e).messages == v.messages + [e.message];
      if pending != [] && pending[0] == e.message {
        assert pending == [e.message] + pending[1..] && Shown(pending, e) == pending[1..];
        hide *;
        TakeHead(e.message, pending[1..], v.messages);
      } else {
        hide *;
        TakeHead(e.message, [], v.messages);
      }
    }
  }

  lemma MoveOver(drained: multiset<Message>, shown: multiset<Message>, pending: multiset<Message>,
      lost: multiset<Message>, shown': multiset<Message>, pending': multiset<Message>)
    requires drained <= shown + lost + pending && shown + pending <= shown' + pending'
    ensures drained <= shown' + lost + pending'
  {
    assert shown + lost + pending == (shown + pending) + lost;
    assert shown' + lost + pending' == (shown' + pending') + lost;
  }

  lemma AdvanceAccounts(s: State, id: nat, e: Event)
    requires s.activeRun == Some(id) && IsExecuting(s, id) && Accounted(s)
    ensures Accounted(Advance(s, id, e))
  {
    var pending := s.frames[id].pending;
    var v, w := s.view.messages, Reduce(s.view, e).messages;
    hide Reduce, Shown;
    ShownIsEnded(s.view, pending, e);
    MoveOver(multiset(s.drained), multiset(v), multiset(pending), multiset(s.lost), multiset(w),
      multiset(Shown(pending, e)));
  }

  lemma FailAccounts(s: State, id: nat, error: string)
    requires s.activeRun == Some(id) && IsExecuting(s, id) && Accounted(s)
    ensures Accounted(Fail(s, id, error))
  {
  }

  lemma HoldAccounts(s: State, id: nat, taken: seq<Message>)
    requires s.activeRun == Some(id) && IsExecuting(s, id) && Accounted(s)
    ensures Accounted(Hold(s, id, taken))
  {
  }

  /** Only an event that completes a message changes the transcript, and the report drains nothing. */
  lemma EmitFailureAccounts(s: State, id: nat, thrown: Option<string>)
    requires Inv(s) && Accounted(s)
    ensures Accounted(Next(s, EmitFailure(id, thrown)))
  {
    if id in s.frames { OnlyTheActiveRun(s, id); }
  }

  lemma StillExecuting(s: State, id: nat, e: Event)
    requires IsExecuting(s, id)
    ensures IsExecuting(Advance(s, id, e), id) && Advance(s, id, e).activeRun == s.activeRun
  {
  }

  lemma ContinueAccounts(s: State)
    requires Inv(s) && Accounted(s)
    ensures Accounted(Next(s, Continue))
  {
    if s.activeRun.None? {
      StartAccounts(s, []);
      StartAccounts(s.(steering := Drained(s.steering)), TakenFrom(s.steering));
      StartAccounts(s.(followUps := Drained(s.followUps)), TakenFrom(s.followUps));
    }
  }

  lemma CallAccounts(s: State, a: Action)
    requires Accounted(s)
    ensures Accounted(Next(s, Outside(a)))
  {
  }

  lemma EmitAccounts(s: State, id: nat, e: Event, thrown: Option<string>)
    requires Accounted(s) && (IsExecuting(s, id) ==> s.activeRun == Some(id))
    ensures Accounted(Next(s, Emit(id, e, thrown)))
  {
    hide Accounted, Advance, Fail;
    if IsExecuting(s, id) {
      AdvanceAccounts(s, id, e);
      StillExecuting(s, id, e);
      if ErrorOf(s, thrown).Some? { FailAccounts(Advance(s, id, e), id, ErrorOf(s, thrown).value); }
    }
  }

  lemma PollAccounts(s: State, id: nat)
    requires Accounted(s) && (IsExecuting(s, id) ==> s.activeRun == Some(id))
    ensures Accounted(Next(s, PollSteering(id))) && Accounted(Next(s, PollFollowUps(id)))
  {
    if IsExecuting(s, id) {
      HoldAccounts(s.(steering := Drained(s.steering)), id, TakenFrom(s.steering));
      HoldAccounts(s.(followUps := Drained(s.followUps)), id, TakenFrom(s.followUps));
    }
  }

  lemma EndAccounts(s: State, id: nat, error: string)
    requires Accounted(s) && (IsExecuting(s, id) ==> s.activeRun == Some(id))
    ensures Accounted(Next(s, Return(id))) && Accounted(Next(s, Throw(id, error)))
  {
    if IsExecuting(s, id) { FailAccounts(s, id, error); }
  }

  /** No move makes a drained message disappear. */
  lemma NextAccounts(s: State, a: Move)
    requires Inv(s) && Accounted(s)
    ensures Accounted(Next(s, a))
  {
    hide Accounted, Start, TakenFrom, Drained;
    forall id | id in s.frames ensures s.activeRun == Some(id) { OnlyTheActiveRun(s, id); }
    match a
    case Prompt => if s.activeRun.None? { StartAccounts(s, []); }
    case Continue => ContinueAccounts(s);
    case Outside(c) => CallAccounts(s, c);
    case Emit(id, e, thrown) => EmitAccounts(s, id, e, thrown);
    case PollSteering(id) => PollAccounts(s, id);
    case PollFollowUps(id) => PollAccounts(s, id);
    case Return(id) => EndAccounts(s, id, "");
    case Throw(id, error) => EndAccounts(s, id, error);
    case EmitFailure(id, thrown) => EmitFailureAccounts(s, id, thrown);
  }

  /** Whatever happens, in whatever order, listeners that throw included. */
  lemma {:induction false} NothingVanishes(s: State, moves: seq<Move>)
    requires Inv(s) && Accounted(s)
    ensures Accounted(RunAll(s, moves))
  {
    if moves != [] {
      var front := moves[..|moves| - 1];
      NothingVanishes(s, front);
      EveryReachableStateIsSafe(s, front);
      hide Next, Accounted, Inv;
      NextAccounts(RunAll(s, front), moves[|moves| - 1]);
    }
  }

  /** During a run, `prompt()` and `continue()` are refused and change nothing: no queue is drained. */
  lemma CallsDuringARunAreRefused(s: State, moves: seq<Move>)
    requires Inv(s) && RunAll(s, moves).frames != map[]
    ensures var r := RunAll(s, moves);
      Next(r, Prompt) == r && Next(r, Continue) == r
  {
    EveryReachableStateIsSafe(s, moves);
  }

  /** No event of a run is ever processed outside an active run. */
  lemma RunsEmitWhileActive(s: State, moves: seq<Move>, id: nat)
    requires Inv(s) && id in RunAll(s, moves).frames
    ensures RunAll(s, moves).activeRun == Some(id) && RunAll(s, moves).isStreaming
  {
    EveryReachableStateIsSafe(s, moves);
    assert id in RunAll(s, moves).frames.Keys;
  }

  /** However a run ends, by returning, by a throwing listener, or by one that throws again while the
      failure is reported, the agent is idle right after. */
  lemma EveryEndSettlesIdle(s: State, moves: seq<Move>, a: Move, id: nat)
    requires Inv(s) && id in RunAll(s, moves).frames && id !in Next(RunAll(s, moves), a).frames
    ensures IsIdle(Next(RunAll(s, moves), a))
  {
    EveryReachableStateIsSafe(s, moves);
    var r := RunAll(s, moves);
    NextKeepsInv(r, a);
    assert id in r.frames.Keys;
    assert Next(r, a).frames.Keys <= r.frames.Keys - {id} || Next(r, a).activeRun.None?;
  }

  lemma RunAllSnoc(s: State, moves: seq<Move>, a: Move)
    ensures RunAll(s, moves + [a]) == Next(RunAll(s, moves), a)
  {
    assert (moves + [a])[..|moves|] == moves;
  }

  /** An undisturbed report of a failure: no listener throws. */
  function Report(s: State, id: nat): State {
    var a := EmitFailure(id, None);
    RunAll(s, [a, a, a, a])
  }

  lemma ReportUnfolds(s: State, id: nat)
    ensures var a := EmitFailure(id, None); Report(s, id) == Next(Next(Next(Next(s, a), a), a), a)
  {
    hide Next;
    var a := EmitFailure(id, None);
    RunAllSnoc(s, [], a);
    RunAllSnoc(s, [a], a);
    RunAllSnoc(s, [a, a], a);
    RunAllSnoc(s, [a, a, a], a);
    assert [] + [a] == [a] && [a] + [a] == [a, a] && [a, a] + [a] == [a, a, a] && [a, a, a] + [a] == [a, a, a, a];
  }

  /** One event of an undisturbed report; the last one finishes the run. */
  lemma ReportStep(s: State, id: nat, e: Event)
    requires s.activeRun == Some(id) && id in s.frames && s.frames[id].Failing? && s.frames[id].next < 4
    requires e == FailureEvents(s.frames[id].failure)[s.frames[id].next]
    ensures var f := s.frames[id];
      Next(s, EmitFailure(id, None)) ==
      if f.next == 3 then Finish(Process(s, e), id)
      else Process(s, e).(frames := s.frames[id := f.(next := f.next + 1)])
  {}

  lemma ThrowFails(s: State, id: nat, error: string)
    requires IsExecuting(s, id)
    ensures Next(s, Throw(id, error)) == Fail(s, id, error)
  {}

  /** A failing run whose report is not disturbed ends idle with the failure as the last message of the
      transcript and as the error of the agent; it counts as aborted exactly if it was aborted. */
  lemma FailureIsReported(s: State, id: nat, error: string)
    requires Inv(s) && IsExecuting(s, id)
    ensures var m := FailureMessage(error, s.frames[id].aborted);
      var r := Report(Next(s, Throw(id, error)), id);
      && IsIdle(r)
      && r.view.messages == s.view.messages + [m]
      && r.trace == s.trace + FailureEvents(m)
      && r.lost == s.lost + s.frames[id].pending
      && r.view.errorMessage == (if error != "" then Some(error) else s.view.errorMessage)
      && (m.stopReason == Aborted <==> s.frames[id].aborted)
  {
    var m := FailureMessage(error, s.frames[id].aborted);
    var a, b, c, d := MessageStart(m), MessageEnd(m), TurnEnd(m, []), AgentEnd([m]);
    var s0 := Fail(s, id, error);
    ThrowFails(s, id, error);
    assert id in s.frames.Keys;
    hide Next, Report;
    var s1 := Next(s0, EmitFailure(id, None));
    var s2 := Next(s1, EmitFailure(id, None));
    var s3 := Next(s2, EmitFailure(id, None));
    var s4 := Next(s3, EmitFailure(id, None));
    ReportUnfolds(s0, id);
    ReportStep(s0, id, a);
    ReportStep(s1, id, b);
    ReportStep(s2, id, c);
    ReportStep(s3, id, d);
    assert s4.frames.Keys == s.frames.Keys - {id} == {};
    assert s4.trace == s.trace + FailureEvents(m);
  }

  // ---- The traces of failing runs ----

  /** A run emits some events and no listener throws. */
  function Emissions(id: nat, es: seq<Event>): seq<Move> {
    seq(|es|, i requires 0 <= i < |es| => Emit(id, es[i], None))
  }

  /** The drained messages that a run still has to complete after some events. */
  function ShownAll(pending: seq<Message>, es: seq<Event>): seq<Message> {
    if es == [] then pending else Shown(ShownAll(pending, es[..|es| - 1]), es[|es| - 1])
  }

  lemma ShownAllSnoc(pending: seq<Message>, es: seq<Event>, e: Event)
    ensures ShownAll(pending, es + [e]) == Shown(ShownAll(pending, es), e)
  {
    assert (es + [e])[..|es|] == es;
  }

  /** The state after a run has emitted some events and nothing else has happened. */
  function Emitted(s: State, id: nat, es: seq<Event>): State
    requires IsExecuting(s, id)
  {
    var f := s.frames[id];
    s.(view := ReduceAll(s.view, es), trace := s.trace + es,
       frames := s.frames[id := f.(pending := ShownAll(f.pending, es))])
  }

  lemma EmittedSnoc(s: State, id: nat, es: seq<Event>, e: Event)
    requires IsExecuting(s, id)
    ensures IsExecuting(Emitted(s, id, es), id)
    ensures Advance(Emitted(s, id, es), id, e) == Emitted(s, id, es + [e])
  {
    ReduceSnoc(s.view, es, e);
    ShownAllSnoc(s.frames[id].pending, es, e);
    hide ReduceAll, ShownAll, Reduce, Shown;
    Assoc(s.trace, es, [e]);
    var f := s.frames[id];
    var g, h := f.(pending := ShownAll(f.pending, es)), f.(pending := ShownAll(f.pending, es + [e]));
    assert s.frames[id := g][id := h] == s.frames[id := h];
  }

  lemma {:induction false} EmissionsAreTraced(s: State, id: nat, es: seq<Event>)
    requires s.activeRun == Some(id) && IsExecuting(s, id)
    ensures RunAll(s, Emissions(id, es)) == Emitted(s, id, es)
  {
    if es == [] {
      assert s.trace + [] == s.trace && s.frames[id := s.frames[id]] == s.frames;
    } else {
      var front, e := es[..|es| - 1], es[|es| - 1];
      assert Emissions(id, es) == Emissions(id, front) + [Emit(id, e, None)] && es == front + [e];
      hide ReduceAll, ShownAll, Emissions, RunAll, Advance;
      EmissionsAreTraced(s, id, front);
      RunAllSnoc(s, Emissions(id, front), Emit(id, e, None));
      EmittedSnoc(s, id, front, e);
    }
  }

  /** The failure that an executing run reports. */
  function FailureOf(s: State, id: nat, error: string): AssistantMessage
    requires IsExecuting(s, id)
  {
    FailureMessage(error, s.frames[id].aborted)
  }

  /** A run emits the events `es` up to event k, whose listener throws, and reports the failure. */
  function FailedAt(s: State, id: nat, es: seq<Event>, k: nat, error: string): State
    requires k < |es|
  {
    Report(Next(RunAll(s, Emissions(id, es[..k])), Emit(id, es[k], Some(error))), id)
  }

  /** A throwing listener is an event that is processed and an executor that throws. */
  lemma ListenerThrows(s: State, id: nat, e: Event, error: string)
    requires Inv(s) && s.activeRun == Some(id) && IsExecuting(s, id)
    ensures Next(s, Emit(id, e, Some(error))) == Next(Advance(s, id, e), Throw(id, error))
    ensures Inv(Advance(s, id, e)) && IsExecuting(Advance(s, id, e), id)
  {
    assert Advance(s, id, e).frames.Keys == s.frames.Keys;
  }

  /** What a failed run leaves: its events up to the one that failed and the report as its trace, the
      completed messages and the failure in the transcript, and the drained messages it had not completed
      as lost. */
  lemma TraceOfAFailedRun(s: State, id: nat, es: seq<Event>, k: nat, error: string)
    requires Inv(s) && s.activeRun == Some(id) && IsExecuting(s, id) && k < |es|
    ensures var r := FailedAt(s, id, es, k, error);
      var m := FailureOf(s, id, error);
      && IsIdle(r) && r.trace == s.trace + es[..k + 1] + FailureEvents(m)
      && r.view.messages == s.view.messages + Ended(es[..k + 1]) + [m]
      && r.lost == s.lost + ShownAll(s.frames[id].pending, es[..k + 1])
  {
    EmissionsAreTraced(s, id, es[..k]);
    assert FailureOf(s, id, error) == FailureMessage(error, s.frames[id].aborted);
    var before := RunAll(s, Emissions(id, es[..k]));
    assert before.frames.Keys == s.frames.Keys && Inv(before);
    assert es[..k + 1] == es[..k] + [es[k]];
    hide Report, RunAll, Next, Emissions, FailureEvents, Inv, ReduceAll, Ended;
    ListenerThrows(before, id, es[k], error);
    FailureIsReported(Advance(before, id, es[k]), id, error);
    ReduceSnoc(s.view, es[..k], es[k]);
    ShownAllSnoc(s.frames[id].pending, es[..k], es[k]);
    TranscriptIsEnded(s.view, es[..k + 1]);
    assert s.trace + es[..k] + [es[k]] == s.trace + es[..k + 1];
  }

  lemma EventsOfAReport(es: seq<Event>, m: AssistantMessage)
    ensures es + FailureEvents(m) ==
      es + [MessageStart(m)] + [MessageEnd(m)] + [TurnEnd(m, [])] + [AgentEnd([m])]
  {
  }

  lemma NestingOfAReport(es: seq<Event>, m: AssistantMessage)
    ensures Scan(Before, es + FailureEvents(m)) == After <==> Scan(Before, es) == InTurn
  {
    var a, b, c, d := MessageStart(m), MessageEnd(m), TurnEnd(m, []), AgentEnd([m]);
    EventsOfAReport(es, m);
    ScanSnoc(Before, es, a);
    ScanSnoc(Before, es + [a], b);
    ScanSnoc(Before, es + [a] + [b], c);
    ScanSnoc(Before, es + [a] + [b] + [c], d);
  }

  /** The events that leave a turn open with no message open in it. */
  predicate LeavesTurnOpen(e: Event) {
    e.TurnStart? || e.MessageEnd? || IsToolEvent(e)
  }

  /** When a listener throws, the failure report completes the nesting of the run's events if and only if
      it threw at the start of a turn, at the end of a message or at a tool event. */
  lemma NestingOfAFailedRun(env: Env, start: seq<Message>, tools: seq<Tool>, log: seq<Turn>,
      s: State, id: nat, k: nat, error: string)
    requires Run(env, start, tools, log) && log != [] && k < |Trace(log)|
    requires Inv(s) && s.activeRun == Some(id) && IsExecuting(s, id) && s.trace == []
    ensures var r := FailedAt(s, id, Trace(log), k, error);
      IsIdle(r) && (Scan(Before, r.trace) == After <==> LeavesTurnOpen(Trace(log)[k]))
  {
    hide *;
    var es, m := Trace(log), FailureOf(s, id, error);
    TraceOfAFailedRun(s, id, es, k, error);
    NestedThroughout(env, start, tools, log, k + 1);
    assert [] + es[..k + 1] == es[..k + 1];
    NestingOfAReport(es[..k + 1], m);
    OpenAfterEvent(es, k);
  }

  lemma OpenAfterEvent(es: seq<Event>, k: nat)
    requires k < |es| && Scan(Before, es[..k + 1]) != Broken
    ensures Scan(Before, es[..k + 1]) == InTurn <==> LeavesTurnOpen(es[k])
  {
    assert es[..k + 1] == es[..k] + [es[k]];
    ScanSnoc(Before, es[..k], es[k]);
  }

  lemma GrammarOfAReport(es: seq<Event>, m: AssistantMessage)
    ensures ReadAll(Expecting, es + FailureEvents(m)) == Finished <==> es == [AgentStart, TurnStart]
  {
    var a, b, c, d := MessageStart(m), MessageEnd(m), TurnEnd(m, []), AgentEnd([m]);
    EventsOfAReport(es, m);
    hide *;
    ReadSnoc(Expecting, es, a);
    ReadSnoc(Expecting, es + [a], b);
    ReadSnoc(Expecting, es + [a] + [b], c);
    ReadSnoc(Expecting, es + [a] + [b] + [c], d);
    StreamedIsCompleted(es);
    var s := ReadAll(Expecting, es);
    OnlyTheFirstTurnStart(es, 0);
    if s.InTurnAfter? { OnlyTheFirstTurnStart(es, s.turns); }
    ReportCloses(s, m);
  }

  lemma ReportedMessage(s: Reader, m: AssistantMessage)
    ensures Read(Read(s, MessageStart(m)), MessageEnd(m)) ==
      if s.InTurnAfter? then InTurnAfter(s.turns, s.ended, s.turn.(own := s.turn.own + [m])) else Wrong
  {
  }

  lemma ReportedTurnCloses(turn: TurnSoFar, m: AssistantMessage)
    requires turn.streamed.Some? ==> turn.streamed.value < |turn.own|
    ensures Closes(turn.(own := turn.own + [m]), m, []) <==> turn.streamed.None? && turn.tools.None?
  {
    var own := turn.own + [m];
    assert own[|own| - 1] == m && own[|own|..] == [];
  }

  lemma ReportCloses(s: Reader, m: AssistantMessage)
    requires StreamedIn(s)
    ensures Read(Read(Read(Read(s, MessageStart(m)), MessageEnd(m)), TurnEnd(m, [])), AgentEnd([m])) == Finished <==>
            s.InTurnAfter? && s.ended == [] && s.turn == NEW_TURN
  {
    ReportedMessage(s, m);
    if s.InTurnAfter? {
      ReportedTurnCloses(s.turn, m);
      hide Closes;
      assert |s.ended + (s.turn.own + [m])| == |s.ended| + |s.turn.own| + 1;
      assert s.ended == [] && s.turn.own == [] ==> s.ended + (s.turn.own + [m]) == [m];
    }
  }

  /** The report obeys the whole grammar of runs only if the listener threw at the very first `turn_start`:
      later, the report's `turn_end` and `agent_end` leave out messages of the run. */
  lemma GrammarOfAFailedRun(env: Env, start: seq<Message>, tools: seq<Tool>, log: seq<Turn>,
      s: State, id: nat, k: nat, error: string)
    requires Run(env, start, tools, log) && log != [] && k < |Trace(log)|
    requires Inv(s) && s.activeRun == Some(id) && IsExecuting(s, id) && s.trace == []
    ensures ReadAll(Expecting, FailedAt(s, id, Trace(log), k, error).trace) == Finished <==> k == 1
  {
    hide *;
    var es, m := Trace(log), FailureOf(s, id, error);
    TraceOfAFailedRun(s, id, es, k, error);
    GrammarOfARun(env, start, tools, log);
    FirstTwo(es);
    assert [] + es[..k + 1] == es[..k + 1];
    GrammarOfAReport(es[..k + 1], m);
    assert es[..2] == [AgentStart, TurnStart];
  }

  lemma FirstEvent(e: Event)
    requires Read(Expecting, e) != Wrong
    ensures e == AgentStart && Read(Expecting, e) == AfterTurns(0, [])
  {
  }

  lemma SecondEvent(e: Event)
    requires Read(AfterTurns(0, []), e) != Wrong
    ensures e == TurnStart
  {
  }

  lemma NotYet()
    ensures ReadAll(Expecting, []) == Expecting
  {
  }

  lemma FirstTwo(es: seq<Event>)
    requires ReadAll(Expecting, es) == Finished
    ensures |es| >= 2 && es[0] == AgentStart && es[1] == TurnStart
  {
    hide Read, ReadAll;
    NotYet();
    assert es != [];
    NeverWrong(es, 1);
    assert es[..1] == [] + [es[0]] && (|es| == 1 ==> es[..1] == es);
    ReadSnoc(Expecting, [], es[0]);
    FirstEvent(es[0]);
    if |es| >= 2 {
      NeverWrong(es, 2);
      assert es[..2] == es[..1] + [es[1]];
      ReadSnoc(Expecting, es[..1], es[1]);
      SecondEvent(es[1]);
    }
  }

  predicate EndsTwice(trace: seq<Event>) {
    exists i, j :: 0 <= i < j < |trace| && trace[i].AgentEnd? && trace[j].AgentEnd?
  }

  lemma ReportEndsAgain(es: seq<Event>, m: Message)
    requires es != [] && es[|es| - 1].AgentEnd?
    ensures EndsTwice(es + FailureEvents(m))
  {
    var trace := es + FailureEvents(m);
    assert trace[|es| - 1].AgentEnd? && trace[|es| + 3].AgentEnd?;
  }

  lemma LastOfATrace(log: seq<Turn>)
    ensures Trace(log) != [] && Trace(log)[|Trace(log)| - 1].AgentEnd?
    ensures !LeavesTurnOpen(Trace(log)[|Trace(log)| - 1])
  {
  }

  /** A listener that throws at `agent_end` makes the run end twice, out of order. */
  lemma SecondAgentEnd(env: Env, start: seq<Message>, tools: seq<Tool>, log: seq<Turn>, s: State, id: nat,
      error: string)
    requires Run(env, start, tools, log) && log != []
    requires Inv(s) && s.activeRun == Some(id) && IsExecuting(s, id) && s.trace == []
    ensures var trace := FailedAt(s, id, Trace(log), |Trace(log)| - 1, error).trace;
      EndsTwice(trace) && Scan(Before, trace) != After
  {
    hide *;
    var es, n, m := Trace(log), |Trace(log)|, FailureOf(s, id, error);
    LastOfATrace(log);
    assert es[..n] == es;
    TraceOfAFailedRun(s, id, es, n - 1, error);
    NestingOfAFailedRun(env, start, tools, log, s, id, n - 1, error);
    assert [] + es == es;
    ReportEndsAgain(es, m);
  }

  // ---- What a failed run loses ----

  /** How many of `n` injected messages the first `events` events complete, if `head` events come before the
      injection: each takes two events. */
  function CompletedBy(head: nat, n: nat, events: nat): (c: nat)
    ensures c <= n
    ensures c == n <==> n == 0 || head + 2 * n <= events
  {
    if events <= head then 0 else if (events - head) / 2 < n then (events - head) / 2 else n
  }

  lemma {:induction false} NothingShown(pending: seq<Message>, es: seq<Event>)
    requires pending == [] || forall i :: 0 <= i < |es| ==> !es[i].MessageEnd?
    ensures ShownAll(pending, es) == pending
    ensures pending != [] ==> Ended(es) == []
  {
    if es != [] { NothingShown(pending, es[..|es| - 1]); }
  }

  lemma {:induction false} ShownAppend(pending: seq<Message>, a: seq<Event>, b: seq<Event>)
    ensures ShownAll(pending, a + b) == ShownAll(ShownAll(pending, a), b)
  {
    if b == [] {
      assert a + b == a;
    } else {
      var front, last := b[..|b| - 1], b[|b| - 1];
      ShownAppend(pending, a, front);
      assert a + b == (a + front) + [last];
      ShownAllSnoc(pending, a + front, last);
    }
  }

  lemma ShownPair(pending: seq<Message>, before: seq<Event>, m: Message, rest: seq<Message>)
    requires ShownAll(pending, before) == [m] + rest
    ensures ShownAll(pending, before + [MessageStart(m)]) == [m] + rest
    ensures ShownAll(pending, before + [MessageStart(m), MessageEnd(m)]) == rest
  {
    assert [MessageStart(m)] + [MessageEnd(m)] == [MessageStart(m), MessageEnd(m)];
    Assoc(before, [MessageStart(m)], [MessageEnd(m)]);
    ShownAllSnoc(pending, before, MessageStart(m));
    ShownAllSnoc(pending, before + [MessageStart(m)], MessageEnd(m));
    assert ([m] + rest)[1..] == rest;
  }

  /** The injection of drained messages completes them one by one. */
  lemma {:induction false} InjectionShows(pending: seq<Message>, n: nat)
    requires n <= |pending|
    ensures ShownAll(pending, Pairs(pending[..n])) == pending[n..]
  {
    if n > 0 {
      var front, m := pending[..n - 1], pending[n - 1];
      assert pending[..n] == front + [m] && pending[n - 1..] == [m] + pending[n..];
      hide Pairs, ShownAll;
      InjectionShows(pending, n - 1);
      PairsSnoc(front, m);
      ShownPair(pending, Pairs(front), m, pending[n..]);
    } else {
      NoneShown(pending);
    }
  }

  lemma NoneShown(pending: seq<Message>)
    ensures ShownAll(pending, Pairs([])) == pending
  {
  }

  lemma {:induction false} PairsPrefix(ms: seq<Message>, n: nat)
    requires n <= 2 * |ms|
    ensures |Pairs(ms)| == 2 * |ms|
    ensures Pairs(ms)[..n] == Pairs(ms[..n / 2]) + (if n % 2 == 0 then [] else [MessageStart(ms[n / 2])])
  {
    if ms == [] {
      assert Pairs(ms)[..n] == [] && Pairs(ms[..n / 2]) == [];
    } else {
      var front, m := ms[..|ms| - 1], ms[|ms| - 1];
      assert ms == front + [m];
      PairsSnoc(front, m);
      PairsPrefix(front, if n <= 2 * |front| then n else 2 * |front|);
      hide Pairs;
      if n <= 2 * |front| {
        assert Pairs(ms)[..n] == Pairs(front)[..n] && front[..n / 2] == ms[..n / 2];
      } else if n == 2 * |ms| {
        assert Pairs(ms)[..n] == Pairs(ms) && ms[..n / 2] == ms;
      } else {
        assert n / 2 == |front| && ms[..n / 2] == front;
        assert Pairs(ms)[..n] == Pairs(front) + [MessageStart(m)];
      }
    }
  }

  /** During the injection. */
  lemma Injecting(pending: seq<Message>, n: nat)
    requires n <= 2 * |pending|
    ensures |Pairs(pending)| == 2 * |pending|
    ensures ShownAll(pending, Pairs(pending)[..n]) == pending[n / 2..]
    ensures Ended(Pairs(pending)[..n]) == pending[..n / 2]
  {
    var c := n / 2;
    PairsPrefix(pending, n);
    InjectionShows(pending, c);
    EndedPairs(pending[..c]);
    var before := Pairs(pending[..c]);
    if n % 2 == 0 {
      assert before + [] == before;
    } else {
      var m := pending[c];
      hide Pairs, ShownAll, Ended;
      ShownAllSnoc(pending, before, MessageStart(m));
      EndedSnoc(before, MessageStart(m));
    }
  }

  lemma PrefixOfThree<T>(a: seq<T>, b: seq<T>, c: seq<T>, n: nat)
    requires n <= |a + b + c|
    ensures (a + b + c)[..n] ==
      if n <= |a| then a[..n] else if n <= |a| + |b| then a + b[..n - |a|] else a + b + c[..n - |a| - |b|]
  {
  }

  lemma AfterTheInjection(pending: seq<Message>, head: seq<Event>, rest: seq<Event>)
    requires ShownAll(pending, head) == pending && Ended(head) == []
    ensures ShownAll(pending, head + Pairs(pending) + rest) == []
    ensures pending <= Ended(head + Pairs(pending) + rest)
  {
    var pairs := Pairs(pending);
    Injecting(pending, 2 * |pending|);
    assert pairs[..2 * |pending|] == pairs && pending[..|pending|] == pending;
    hide Pairs, ShownAll, Ended;
    ShownAppend(pending, head, pairs);
    ShownAppend(pending, head + pairs, rest);
    NothingShown([], rest);
    EndedAppend(head, pairs);
    EndedAppend(head + pairs, rest);
    assert [] + pending == pending;
  }

  lemma InTheInjection(pending: seq<Message>, head: seq<Event>, n: nat)
    requires n <= 2 * |pending| && n <= |Pairs(pending)|
    requires ShownAll(pending, head) == pending && Ended(head) == []
    ensures ShownAll(pending, head + Pairs(pending)[..n]) == pending[n / 2..]
    ensures pending[..n / 2] <= Ended(head + Pairs(pending)[..n])
  {
    Injecting(pending, n);
    hide Pairs, ShownAll, Ended;
    ShownAppend(pending, head, Pairs(pending)[..n]);
    EndedAppend(head, Pairs(pending)[..n]);
    assert [] + pending[..n / 2] == pending[..n / 2];
  }

  lemma BeforeTheInjection(pending: seq<Message>, head: seq<Event>, n: nat)
    requires n <= |head| && forall i :: 0 <= i < |head| ==> !head[i].MessageEnd?
    ensures ShownAll(pending, head[..n]) == pending && Ended(head[..n]) == []
    ensures head[..|head|] == head
  {
    hide ShownAll, Ended;
    NothingShown(pending, head[..n]);
    NothingEnds(head[..n]);
  }

  /** What `es`, the first `n` events, have completed. */
  ghost predicate CompletedIn(pending: seq<Message>, head: nat, es: seq<Event>, n: nat) {
    var c := CompletedBy(head, |pending|, n);
    ShownAll(pending, es) == pending[c..] && pending[..c] <= Ended(es)
  }

  lemma EarlyPrefix(pending: seq<Message>, head: seq<Event>, n: nat)
    requires n <= |head| && forall i :: 0 <= i < |head| ==> !head[i].MessageEnd?
    ensures CompletedIn(pending, |head|, head[..n], n)
  {
    BeforeTheInjection(pending, head, n);
    hide ShownAll, Ended;
    assert CompletedBy(|head|, |pending|, n) == 0 && pending[0..] == pending && pending[..0] == [];
  }

  lemma MiddlePrefix(pending: seq<Message>, head: seq<Event>, m: nat)
    requires 0 < m <= 2 * |pending| && forall i :: 0 <= i < |head| ==> !head[i].MessageEnd?
    requires m <= |Pairs(pending)|
    ensures CompletedIn(pending, |head|, head + Pairs(pending)[..m], |head| + m)
  {
    BeforeTheInjection(pending, head, |head|);
    hide ShownAll, Ended, Pairs;
    InTheInjection(pending, head, m);
    assert CompletedBy(|head|, |pending|, |head| + m) == m / 2;
  }

  lemma LatePrefix(pending: seq<Message>, head: seq<Event>, rest: seq<Event>, n: nat)
    requires n > |head| + 2 * |pending| && forall i :: 0 <= i < |head| ==> !head[i].MessageEnd?
    ensures CompletedIn(pending, |head|, head + Pairs(pending) + rest, n)
  {
    BeforeTheInjection(pending, head, |head|);
    hide ShownAll, Ended, Pairs;
    AfterTheInjection(pending, head, rest);
    var c := |pending|;
    assert CompletedBy(|head|, c, n) == c && pending[c..] == [] && pending[..c] == pending;
  }

  /** Some events before the injection, the injection, and what follows it. */
  lemma AroundTheInjection(pending: seq<Message>, head: seq<Event>, tail: seq<Event>, n: nat)
    requires n <= |head + Pairs(pending) + tail|
    requires forall i :: 0 <= i < |head| ==> !head[i].MessageEnd?
    ensures CompletedIn(pending, |head|, (head + Pairs(pending) + tail)[..n], n)
  {
    hide CompletedIn, Pairs;
    PairsLength(pending);
    PrefixOfThree(head, Pairs(pending), tail, n);
    if n <= |head| {
      EarlyPrefix(pending, head, n);
    } else if n - |head| <= 2 * |pending| {
      MiddlePrefix(pending, head, n - |head|);
    } else {
      LatePrefix(pending, head, tail[..n - |head| - 2 * |pending|], n);
    }
  }

  lemma PairsLength(ms: seq<Message>)
    ensures |Pairs(ms)| == 2 * |ms|
  {
    hide Pairs;
    PairsPrefix(ms, 0);
  }

  lemma {:induction false} NothingEnds(es: seq<Event>)
    requires forall i :: 0 <= i < |es| ==> !es[i].MessageEnd?
    ensures Ended(es) == []
  {
    if es != [] { NothingEnds(es[..|es| - 1]); }
  }

  /** A run that has just drained some messages shows some events, then injects them. If a listener throws at
      event k, the drained messages are those that have reached the transcript followed by those that are
      lost, and none is lost exactly if the whole injection is over. */
  lemma LostByAFailure(s: State, id: nat, head: seq<Event>, tail: seq<Event>, k: nat, error: string)
    requires Inv(s) && s.activeRun == Some(id) && IsExecuting(s, id)
    requires forall i :: 0 <= i < |head| ==> !head[i].MessageEnd?
    requires k < |head + Pairs(s.frames[id].pending) + tail|
    ensures var pending := s.frames[id].pending;
      var r := FailedAt(s, id, head + Pairs(pending) + tail, k, error);
      var c := CompletedBy(|head|, |pending|, k + 1);
      && pending == pending[..c] + pending[c..]
      && s.view.messages + pending[..c] <= r.view.messages
      && r.lost == s.lost + pending[c..]
      && (r.lost == s.lost <==> pending == [] || |head| + 2 * |pending| <= k + 1)
  {
    var pending := s.frames[id].pending;
    var es := head + Pairs(pending) + tail;
    AroundTheInjection(pending, head, tail, k + 1);
    assert CompletedIn(pending, |head|, es[..k + 1], k + 1);
    hide *;
    TraceOfAFailedRun(s, id, es, k, error);
    var c := CompletedBy(|head|, |pending|, k + 1);
    BetweenPrefixes(s.view.messages, pending[..c], Ended(es[..k + 1]), [FailureOf(s, id, error)]);
    assert |s.lost + pending[c..]| == |s.lost| + |pending| - c;
  }

  lemma BetweenPrefixes(a: seq<Message>, p: seq<Message>, b: seq<Message>, c: seq<Message>)
    requires p <= b
    ensures a + p <= a + b + c
  {
  }

  /** What a turn emits after its messages have been injected. */
  function AfterInjection(t: Turn): seq<Event> {
    t.stream + BatchEvents(t.batch) + [TurnEnd(t.message, Results(t.batch.outs))]
  }

  /** What a turn emits once its messages have been drained: the first turn starts, and shows its prompts,
      before the queue is polled. */
  function AfterPolls(t: Turn, first: bool): seq<Event> {
    (if first then [] else [TurnStart]) + Pairs(t.steered + t.followed) + AfterInjection(t)
  }

  lemma TurnParts(t: Turn)
    ensures TurnEvents(t) == [TurnStart] + Pairs(Injected(t)) + AfterInjection(t)
  {
    var a, b, c, e := [TurnStart] + Pairs(Injected(t)), t.stream, BatchEvents(t.batch), Results(t.batch.outs);
    hide Pairs, BatchEvents, Results, Injected;
    Assoc(a + b, c, [TurnEnd(t.message, e)]);
    Assoc(a, b, c + [TurnEnd(t.message, e)]);
    Assoc(b, c, [TurnEnd(t.message, e)]);
  }

  lemma InjectedParts(t: Turn)
    ensures Pairs(Injected(t)) == Pairs(t.prompts) + Pairs(t.steered + t.followed)
    ensures t.prompts == [] ==> Injected(t) == t.steered + t.followed
  {
    Assoc(t.prompts, t.steered, t.followed);
    hide Pairs;
    PairsAppend(t.prompts, t.steered + t.followed);
    assert [] + (t.steered + t.followed) == t.steered + t.followed;
  }

  lemma FirstOrLater<T>(a: seq<T>, p: seq<T>, d: seq<T>, r: seq<T>)
    ensures a + (p + d) + r == a + p + ([] + d + r)
    ensures a + d + r == [] + (a + d + r)
  {
    Assoc(a, p, d);
    Assoc(a + p, d, r);
    assert [] + d == d;
  }

  lemma TurnFromPolls(env: Env, start: seq<Message>, tools: seq<Tool>, log: seq<Turn>, j: nat)
    requires Run(env, start, tools, log) && j < |log|
    ensures var t := log[j];
      TurnEvents(t) == (if j == 0 then [TurnStart] + Pairs(t.prompts) else []) + AfterPolls(t, j == 0)
  {
    var t := log[j];
    Links(env, start, tools, log, j);
    hide Run, Pairs, Injected, TurnEvents, AfterInjection;
    TurnParts(t);
    InjectedParts(t);
    hide Linked;
    FirstOrLater([TurnStart], Pairs(t.prompts), Pairs(t.steered + t.followed), AfterInjection(t));
  }

  /** In every turn of every run: of the messages drained for the turn a failure loses those whose
      `message_end` has not been processed, so it loses none exactly if all of them have. */
  lemma LostByAFailedTurn(env: Env, start: seq<Message>, tools: seq<Tool>, log: seq<Turn>, j: nat, later: seq<Event>,
      s: State, id: nat, k: nat, error: string)
    requires Run(env, start, tools, log) && j < |log|
    requires Inv(s) && s.activeRun == Some(id) && IsExecuting(s, id)
    requires s.frames[id].pending == log[j].steered + log[j].followed
    requires k < |AfterPolls(log[j], j == 0) + later|
    ensures var t := log[j];
      TurnEvents(t) == (if j == 0 then [TurnStart] + Pairs(t.prompts) else []) + AfterPolls(t, j == 0)
    ensures var drained := log[j].steered + log[j].followed;
      var r := FailedAt(s, id, AfterPolls(log[j], j == 0) + later, k, error);
      var opening := if j == 0 then 0 else 1;
      var c := CompletedBy(opening, |drained|, k + 1);
      && s.view.messages + drained[..c] <= r.view.messages
      && r.lost == s.lost + drained[c..]
      && (r.lost == s.lost <==> drained == [] || opening + 2 * |drained| <= k + 1)
  {
    TurnFromPolls(env, start, tools, log, j);
    var t := log[j];
    var head: seq<Event> := if j == 0 then [] else [TurnStart];
    assert forall i :: 0 <= i < |head| ==> !head[i].MessageEnd?;
    assert AfterPolls(t, j == 0) == head + Pairs(t.steered + t.followed) + AfterInjection(t);
    hide *;
    Assoc(head + Pairs(t.steered + t.followed), AfterInjection(t), later);
    LostByAFailure(s, id, head, AfterInjection(t) + later, k, error);
  }

  // ---- The state of an agent ----

  /** The lifecycle state of an idle agent. */
  ghost function StateOf(agent: Runtime.Agent): State
    reads agent, agent.transcript, agent.steering, agent.followUp
  {
    State(agent.State(), agent.isStreaming, None, agent.steering.Now(), agent.followUp.Now(), map[], 0, agent.trace,
      [], [])
  }

  /** Every idle agent, and so every new one, is a safe start, and a prompt starts a run of it. */
  lemma IdleAgentsAreSafe(agent: Runtime.Agent)
    requires agent.Idle()
    ensures Inv(StateOf(agent)) && IsIdle(StateOf(agent)) && Accounted(StateOf(agent))
    ensures var s := Next(StateOf(agent), Prompt);
      Inv(s) && s.activeRun == Some(0) && IsExecuting(s, 0) && s.trace == []
  {
    NextKeepsInv(StateOf(agent), Prompt);
  }
}
