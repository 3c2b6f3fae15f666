/** The state that an agent owns during a run: the reduced transcript and the two queues. */
module Runtime {
  import opened Messages
  import opened MessageQueue
  import opened Oracles
  import opened Events

  /** Where a run started: the state, the moment, what both queues had accepted by then, and how the
      steering queue was drained. */
  datatype Origin = Origin(view: View, clock: nat, steering: seq<Message>, followUps: seq<Message>,
    steeringMode: QueueMode)

  class Agent {
    const env: Env
    const transcript: MessageArray
    const steering: PendingMessageQueue
    const followUp: PendingMessageQueue
    var streamingMessage: Option<Message>
    var pendingToolCalls: set<string>
    var errorMessage: Option<string>
    var tools: seq<Tool>
    var isStreaming: bool
    var activeRun: bool
    var aborted: bool
    /** Captured by the loop configuration of a run. */
    var skipInitialSteeringPoll: bool
    var clock: nat
    /** The events of the current run, and where it started. */
    ghost var trace: seq<Event>
    ghost var origin: Origin

    function Footprint(): set<object> {
      {this, transcript, steering, followUp}
    }

    ghost function State(): View
      reads this`streamingMessage, this`pendingToolCalls, this`errorMessage, transcript
    {
      View(transcript.items, streamingMessage, pendingToolCalls, errorMessage)
    }

    /** The state is the reduction of the trace, and both queue ledgers balance. */
    ghost predicate Balanced()
      reads this`streamingMessage, this`pendingToolCalls, this`errorMessage, this`trace, this`origin,
            transcript, steering, followUp
    {
      && steering != followUp
      && steering.Valid() && followUp.Valid()
      && State() == ReduceAll(origin.view, trace)
    }

    /** During this run the steering queue has always been drained one message at a time. */
    ghost predicate OneAtATimeSoFar()
      reads this`clock, this`origin
    {
      origin.steeringMode == OneAtATime && env.SteersOneAtATime(origin.clock, clock)
    }

    /** Since the start of the run the abort signal was set exactly if other code aborted the run, and a
        queue that nobody cleared has accepted exactly what was enqueued, after what it had accepted before. */
    ghost predicate Conserved()
      reads this`clock, this`origin, this`aborted, steering, followUp
    {
      && origin.clock <= clock
      && (aborted <==> env.Aborts(origin.clock, clock))
      && (OneAtATimeSoFar() ==> steering.mode == OneAtATime)
      && (env.NeverClears(Steering, origin.clock, clock) ==>
            steering.accepted == origin.steering + env.Enqueued(Steering, origin.clock, clock))
      && (env.NeverClears(FollowUps, origin.clock, clock) ==>
            followUp.accepted == origin.followUps + env.Enqueued(FollowUps, origin.clock, clock))
    }

    ghost predicate Valid()
      reads this, transcript, steering, followUp
    {
      Balanced() && (activeRun ==> Conserved())
    }

    /** What happened since the old state: exactly the events `es` were emitted. Other code may have
        used the queues and the abort signal meanwhile. */
    twostate predicate Logged(es: seq<Event>)
      reads this, transcript, steering, followUp
    {
      && Valid()
      && trace == old(trace) + es
      && origin == old(origin)
      && Undisturbed()
    }

    /** The same, and no drained message changed its place. */
    twostate predicate Emitted(es: seq<Event>)
      reads this, transcript, steering, followUp
    {
      Logged(es) && steering.LedgerKept() && followUp.LedgerKept()
    }

    twostate predicate Undisturbed()
      reads this, transcript, steering, followUp
    {
      && old(clock) <= clock
      && (old(aborted) ==> aborted)
      && isStreaming == old(isStreaming) && activeRun == old(activeRun)
      && skipInitialSteeringPoll == old(skipInitialSteeringPoll)
    }

    /** `n` awaits passed, and both queues are what other code made of them meanwhile. */
    twostate predicate Elapsed(n: nat)
      reads this, steering, followUp
    {
      && clock == old(clock) + n
      && steering.Now() == env.After(Steering, old(steering.Now()), old(clock), clock)
      && followUp.Now() == env.After(FollowUps, old(followUp.Now()), old(clock), clock)
    }

    /** The poll took from the queue what its mode allows; the rest is what other code made of it. */
    twostate predicate Polled(side: Side, queue: PendingMessageQueue, drained: seq<Message>)
      reads this, queue
    {
      && drained == Taken(old(queue.mode), old(queue.messages))
      && queue.Now() == env.After(side, Waiting(old(queue.messages)[|drained|..], old(queue.mode)), old(clock), clock)
    }

    /** What an action of other code does: nothing but to its queue, its mode or the abort signal. */
    twostate predicate Acted(a: Action)
      reads this, steering, followUp
    {
      && steering.Now() == AfterAction(Steering, old(steering.Now()), a)
      && followUp.Now() == AfterAction(FollowUps, old(followUp.Now()), a)
      && (!Clears(Steering, a) ==> steering.accepted == old(steering.accepted) + EnqueuedBy(Steering, a))
      && (!Clears(FollowUps, a) ==> followUp.accepted == old(followUp.accepted) + EnqueuedBy(FollowUps, a))
      && steering.LedgerKept() && followUp.LedgerKept()
      && aborted == (old(aborted) || a.Abort?)
    }

    /** No run is active, and nothing of one is left over. */
    ghost predicate Idle()
      reads this, transcript, steering, followUp
    {
      && Valid() && !activeRun && !isStreaming
      && streamingMessage == None && pendingToolCalls == {}
      && steering.inFlight == [] && followUp.inFlight == []
    }

    /** During a run the abort signal is set exactly if other code aborted the run since it began. */
    lemma Signal()
      requires Valid() && activeRun
      ensures origin.clock <= clock && (aborted <==> env.Aborts(origin.clock, clock))
    {
    }

    constructor (env: Env, messages: seq<Message>, tools: seq<Tool>, steeringMode: QueueMode, followUpMode: QueueMode)
      ensures Idle() && fresh(Footprint()) && this.env == env
      ensures transcript.items == messages && this.tools == tools && trace == []
      ensures steering.messages == followUp.messages == []
      ensures steering.mode == steeringMode && followUp.mode == followUpMode
      ensures State() == View(messages, None, {}, None)
    {
      this.env := env;
      this.tools := tools;
      transcript := new MessageArray(messages);
      steering := new PendingMessageQueue(steeringMode);
      followUp := new PendingMessageQueue(followUpMode);
      streamingMessage, pendingToolCalls, errorMessage := None, {}, None;
      isStreaming, activeRun, aborted, skipInitialSteeringPoll, clock := false, false, false, false, 0;
      trace, origin := [], Origin(View(messages, None, {}, None), 0, [], [], steeringMode);
      new;
      steering.inFlight, followUp.inFlight := [], [];
      steering.delivered, followUp.delivered := [], [];
    }

    /** The queue holds what it held, and is drained as before. */
    twostate predicate Unmoved(queue: PendingMessageQueue)
      reads queue
    {
      queue.messages == old(queue.messages) && queue.mode == old(queue.mode)
    }

    /** What each action of other code does, and what it leaves alone. */
    twostate predicate Exactly(a: Action)
      reads this, steering, followUp
    {
      && (!a.SetSteeringMode? ==> steering.mode == old(steering.mode))
      && (!a.SetFollowUpMode? ==> followUp.mode == old(followUp.mode))
      && match a
         case Steer(m) => steering.messages == old(steering.messages) + [m] && Unmoved(followUp)
         case FollowUp(m) => followUp.messages == old(followUp.messages) + [m] && Unmoved(steering)
         case Abort => aborted && Unmoved(steering) && Unmoved(followUp)
         case SetSteeringMode(mode) =>
           steering.mode == mode && steering.messages == old(steering.messages) && Unmoved(followUp)
         case SetFollowUpMode(mode) =>
           followUp.mode == mode && followUp.messages == old(followUp.messages) && Unmoved(steering)
         case ClearSteeringQueue => steering.messages == [] && Unmoved(followUp)
         case ClearFollowUpQueue => followUp.messages == [] && Unmoved(steering)
    }

    method Perform(a: Action)
      requires Balanced() && activeRun
      modifies steering, followUp, this`aborted
      ensures Balanced() && Acted(a)
      ensures Exactly(a)
    {
      match a {
        case Steer(m) => steering.Enqueue(m);
        case FollowUp(m) => followUp.Enqueue(m);
        case Abort => aborted := true;
        case SetSteeringMode(mode) => steering.mode := mode;
        case SetFollowUpMode(mode) => followUp.mode := mode;
        case ClearSteeringQueue => steering.Clear();
        case ClearFollowUpQueue => followUp.Clear();
      }
    }

    /** All of some actions, one after the other. */
    twostate predicate ActedAll(actions: seq<Action>)
      reads this, steering, followUp
    {
      && steering.Now() == AfterAll(Steering, old(steering.Now()), actions)
      && followUp.Now() == AfterAll(FollowUps, old(followUp.Now()), actions)
      && (Spares(Steering, actions) ==>
            steering.accepted == old(steering.accepted) + EnqueuedByAll(Steering, actions))
      && (Spares(FollowUps, actions) ==>
            followUp.accepted == old(followUp.accepted) + EnqueuedByAll(FollowUps, actions))
      && steering.LedgerKept() && followUp.LedgerKept()
      && aborted == (old(aborted) || Abort in actions)
    }

    /** The actions of other code during one await. */
    method PerformAll(actions: seq<Action>)
      requires Balanced() && activeRun
      modifies steering, followUp, this`aborted
      ensures Balanced() && ActedAll(actions)
    {
      assert actions[..0] == [] && actions[..|actions|] == actions;
      assert ActedAll(actions[..0]);
      hide Balanced, Exactly, AfterAll, AfterAction, EnqueuedByAll, EnqueuedBy, Clears, Spares;
      for i := 0 to |actions|
        invariant Balanced() && ActedAll(actions[..i])
      {
        var before, a := actions[..i], actions[i];
        assert actions[..i + 1] == before + [a] && a in actions[..i + 1];
        ActionsSnoc(Steering, old(steering.Now()), before, a);
        ActionsSnoc(FollowUps, old(followUp.Now()), before, a);
        Assoc(old(steering.accepted), EnqueuedByAll(Steering, before), EnqueuedBy(Steering, a));
        Assoc(old(followUp.accepted), EnqueuedByAll(FollowUps, before), EnqueuedBy(FollowUps, a));
        Perform(a);
      }
    }

    /** Suspends the run: the clock advances and other code acts. */
    method Await()
      requires Valid() && activeRun
      modifies steering, followUp, this`aborted, this`clock
      ensures Emitted([]) && trace == old(trace) && Elapsed(1)
      ensures aborted == (old(aborted) || Abort in env.outside(old(clock)))
    {
      hide Balanced, AfterAll, EnqueuedByAll, Spares, Env.Enqueued, Env.NeverClears, Env.Aborts, Env.SteersOneAtATime;
      var actions := env.outside(clock);
      ghost var steered, followed := steering.accepted, followUp.accepted;
      PerformAll(actions);
      NoTime(env, Steering, old(steering.Now()), clock);
      NoTime(env, FollowUps, old(followUp.Now()), clock);
      WindowSnoc(env, Steering, origin.clock, clock);
      if old(steering.mode) == OneAtATime && SetSteeringMode(All) !in actions {
        ModeStays(old(steering.Now()), actions);
      }
      AcceptedSnoc(env, Steering, origin.steering, steered, steering.accepted, origin.clock, clock);
      AcceptedSnoc(env, FollowUps, origin.followUps, followed, followUp.accepted, origin.clock, clock);
      clock := clock + 1;
    }

    /** The reducer: one event updates the fields it concerns. */
    method Absorb(e: Event)
      modifies this`streamingMessage, this`pendingToolCalls, this`errorMessage, transcript
      ensures State() == Reduce(old(State()), e)
    {
      match e {
        case MessageStart(m) => streamingMessage := Some(m);
        case MessageUpdate(m) => streamingMessage := Some(m);
        case MessageEnd(m) =>
          streamingMessage := None;
          transcript.Push(m);
        case ToolStart(_, call) => pendingToolCalls := pendingToolCalls + {call.id};
        case ToolEnd(_, call, _, _) => pendingToolCalls := pendingToolCalls - {call.id};
        case TurnEnd(m, _) =>
          if m.Assistant? && m.errorMessage.Some? && m.errorMessage.value != "" {
            errorMessage := m.errorMessage;
          }
        case AgentEnd(_) => streamingMessage := None;
        case _ =>
      }
    }

    /** Reduces one event into the state and records it. */
    method Record(e: Event)
      requires Valid()
      modifies this`streamingMessage, this`pendingToolCalls, this`errorMessage, this`trace, transcript
      ensures Valid() && trace == old(trace) + [e]
    {
      hide Conserved, Reduce;
      Absorb(e);
      ReduceSnoc(origin.view, trace, e);
      trace := trace + [e];
    }

    /** Processes one event: reduces it into the state, then awaits the listeners. */
    method ProcessEvents(e: Event)
      requires Valid() && activeRun
      modifies this, transcript, steering, followUp
      ensures Emitted([e]) && Elapsed(1)
      ensures aborted == (old(aborted) || Abort in env.outside(old(clock)))
    {
      hide Valid, Env.After;
      Record(e);
      assert old(trace) + [e] + [] == old(trace) + [e];
      Await();
    }

    /** Emits a message that is not streamed. */
    method EmitMessage(m: Message)
      requires Valid() && activeRun
      modifies this, transcript, steering, followUp
      ensures Emitted([MessageStart(m), MessageEnd(m)]) && Elapsed(2)
    {
      hide Valid, Env.After;
      ProcessEvents(MessageStart(m));
      assert [MessageStart(m)] + [MessageEnd(m)] == [MessageStart(m), MessageEnd(m)];
      Assoc(old(trace), [MessageStart(m)], [MessageEnd(m)]);
      ProcessEvents(MessageEnd(m));
      AfterSplit(env, Steering, old(steering.Now()), old(clock), old(clock) + 1, clock);
      AfterSplit(env, FollowUps, old(followUp.Now()), old(clock), old(clock) + 1, clock);
    }

    /** The steering poll of the loop configuration. */
    method GetSteeringMessages() returns (drained: seq<Message>)
      requires Valid() && activeRun
      modifies this, transcript, steering, followUp
      ensures Valid() && trace == old(trace) && origin == old(origin)
      ensures old(clock) <= clock && (old(aborted) ==> aborted)
      ensures isStreaming == old(isStreaming) && activeRun
      ensures !skipInitialSteeringPoll
      ensures clock == old(clock) + 1
      ensures if old(skipInitialSteeringPoll)
              then drained == [] && steering.Now() == env.After(Steering, old(steering.Now()), old(clock), clock)
              else Polled(Steering, steering, drained)
      ensures followUp.Now() == env.After(FollowUps, old(followUp.Now()), old(clock), clock)
      ensures OneAtATimeSoFar() ==> |drained| <= 1
      ensures followUp.LedgerKept()
      ensures steering.delivered == old(steering.delivered)
      ensures steering.inFlight == old(steering.inFlight) + drained
    {
      if skipInitialSteeringPoll {
        skipInitialSteeringPoll := false;
        drained := [];
      } else {
        drained := steering.Drain();
      }
      Await();
    }

    /** The follow-up poll of the loop configuration. */
    method GetFollowUpMessages() returns (drained: seq<Message>)
      requires Valid() && activeRun
      modifies this, transcript, steering, followUp
      ensures Valid() && trace == old(trace) && origin == old(origin)
      ensures old(clock) <= clock && (old(aborted) ==> aborted)
      ensures isStreaming == old(isStreaming) && activeRun && skipInitialSteeringPoll == old(skipInitialSteeringPoll)
      ensures clock == old(clock) + 1
      ensures Polled(FollowUps, followUp, drained)
      ensures steering.Now() == env.After(Steering, old(steering.Now()), old(clock), clock)
      ensures steering.LedgerKept()
      ensures followUp.delivered == old(followUp.delivered)
      ensures followUp.inFlight == old(followUp.inFlight) + drained
    {
      drained := followUp.Drain();
      Await();
    }
  }
}
